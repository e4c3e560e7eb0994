/**
 Snapshot pinning: the restore policy, the operations that change the server, and what a
 gate run evaluates over whole histories of record runs, gate runs and outside changes.
 */
module SnapshotPin {
  import opened Prelude
  import opened Sorting

  datatype Index = Index(points: nat, vectors: string)

  datatype Snapshot = Snapshot(created: string, content: Index)

  datatype Fingerprint = Fingerprint(points: nat, names: seq<string>)

  /** The baseline's `snapshot` record; a missing one is `Pin(None, None)`. */
  datatype Pin = Pin(points: Option<nat>, name: Option<string>)

  datatype Restore = Drift | Always | Never

  datatype Action = Skip(pinned: Option<string>) | RestorePin(name: string) | PinLive | Refuse

  // ---------------------------------------------------------------- the fingerprint

  datatype Row = Row(created: string, name: string)

  predicate RowLe(a: Row, b: Row) {
    if a.created == b.created then TextLe(a.name, b.name) else TextLe(a.created, b.created)
  }

  function Names(rows: seq<Row>): (names: seq<string>)
    ensures |names| == |rows|
    ensures forall i :: 0 <= i < |rows| ==> names[i] == rows[i].name
  {
    seq(|rows|, i requires 0 <= i < |rows| => rows[i].name)
  }

  /** `names.remove(x)`. */
  function Without(names: seq<string>, x: string): seq<string> {
    if names == [] then []
    else if names[0] == x then names[1..]
    else [names[0]] + Without(names[1..], x)
  }

  /** Oldest first by the server's creation time, the recorded pin moved to the front. */
  function Ordered(rows: seq<Row>, prefer: Option<string>): seq<string> {
    var names := Names(Sort(RowLe, rows));
    if prefer.Some? && prefer.value != "" && prefer.value in names then [prefer.value] + Without(names, prefer.value) else names
  }

  lemma {:induction false} WithoutIs(names: seq<string>, x: string)
    requires NoDuplicates(names) && x in names
    ensures multiset(Without(names, x)) == multiset(names) - multiset{x}
    ensures forall n :: n in Without(names, x) <==> n in names && n != x
  {
    assert names == [names[0]] + names[1..];
    NoDuplicatesHead(names);
    if names[0] != x {
      WithoutIs(names[1..], x);
    }
  }

  /** Whatever the creation order, a recorded pin that still exists is listed first and nothing is lost or repeated. */
  lemma OrderedLists(rows: seq<Row>, prefer: Option<string>)
    requires NoDuplicates(Names(rows))
    ensures forall n :: n in Ordered(rows, prefer) <==> n in Names(rows)
    ensures NoDuplicates(Ordered(rows, prefer))
    ensures prefer.Some? && prefer.value != "" && prefer.value in Names(rows) ==> Ordered(rows, prefer)[0] == prefer.value
  {
    var sorted := Sort(RowLe, rows);
    SortNames(rows);
    var names := Names(sorted);
    PermutationNoDuplicates(Names(rows), names);
    assert forall n :: n in names <==> n in multiset(names);
    assert forall n :: n in Names(rows) <==> n in multiset(Names(rows));
    if prefer.Some? && prefer.value != "" && prefer.value in names {
      WithoutIs(names, prefer.value);
      var moved := [prefer.value] + Without(names, prefer.value);
      assert multiset(moved) == multiset(names);
      PermutationNoDuplicates(names, moved);
    }
  }

  lemma NamesSplit(r: Row, rows: seq<Row>)
    ensures Names([r] + rows) == [r.name] + Names(rows)
  {
  }

  lemma {:induction false} InsertNames(r: Row, rows: seq<Row>)
    ensures multiset(Names(Insert(RowLe, r, rows))) == multiset(Names(rows)) + multiset{r.name}
  {
    NamesSplit(r, rows);
    if rows != [] {
      InsertNames(r, rows[1..]);
      NamesSplit(rows[0], rows[1..]);
      NamesSplit(rows[0], Insert(RowLe, r, rows[1..]));
      assert rows == [rows[0]] + rows[1..];
    }
  }

  lemma {:induction false} SortNames(rows: seq<Row>)
    ensures multiset(Names(Sort(RowLe, rows))) == multiset(Names(rows))
  {
    if rows != [] {
      SortNames(rows[1..]);
      InsertNames(rows[0], Sort(RowLe, rows[1..]));
      NamesSplit(rows[0], rows[1..]);
      assert rows == [rows[0]] + rows[1..];
    }
  }

  // ---------------------------------------------------------------- the policy

  predicate Present(name: Option<string>) {
    name.Some? && name.value != ""
  }

  function Resolve(fp: Fingerprint, recorded: Pin, restore: Restore, recordMode: bool): Action {
    match restore
    case Never => Skip(None)
    case Always =>
      if recordMode then
        if Present(recorded.name) && recorded.name.value in fp.names then RestorePin(recorded.name.value) else PinLive
      else if !Present(recorded.name) || recorded.name.value !in fp.names then Refuse
      else RestorePin(recorded.name.value)
    case Drift =>
      if Present(recorded.name) && fp.names != [] && fp.names[0] == recorded.name.value
         && recorded.points.Some? && fp.points == recorded.points.value then Skip(recorded.name)
      else if recordMode then PinLive
      else if Present(recorded.name) && recorded.name.value in fp.names then RestorePin(recorded.name.value)
      else Refuse
  }

  /**
   A gate run never pins, restores only the recorded name, and under drift skips exactly when
   that snapshot exists and the counts agree; a stray snapshot never counts as drift.
   */
  lemma GatePolicy(rows: seq<Row>, points: nat, recorded: Pin, restore: Restore)
    requires NoDuplicates(Names(rows))
    ensures var fp := Fingerprint(points, Ordered(rows, recorded.name));
      var action := Resolve(fp, recorded, restore, false);
      && action != PinLive
      && (action.RestorePin? ==> recorded.name == Some(action.name) && action.name in Names(rows))
      && (restore == Drift ==> (action.Skip? <==> Present(recorded.name) && recorded.name.value in Names(rows) && recorded.points == Some(points)))
      && (restore != Never ==> (action == Refuse <==> !Present(recorded.name) || recorded.name.value !in Names(rows)))
  {
    OrderedLists(rows, recorded.name);
  }

  // ---------------------------------------------------------------- the server

  /** A remote service: any call may fail, and a recovery may report success without rolling back. */
  class Server {
    var index: Index
    var snapshots: map<string, Snapshot>

    constructor (index: Index, snapshots: map<string, Snapshot>)
      ensures this.index == index && this.snapshots == snapshots
    {
      this.index, this.snapshots := index, snapshots;
    }

    method List() returns (rows: seq<Row>)
      ensures NoDuplicates(Names(rows)) && forall n :: n in Names(rows) <==> n in snapshots
    {
      rows := [];
      var left := snapshots.Keys;
      while left != {}
        invariant left <= snapshots.Keys
        invariant NoDuplicates(Names(rows)) && forall n :: n in Names(rows) <==> n in snapshots.Keys - left
      {
        var n :| n in left;
        left := left - {n};
        ghost var before := Names(rows);
        rows := rows + [Row(snapshots[n].created, n)];
        assert n !in before && Names(rows) == before + [n];
      }
    }

    /** `snapshot_fingerprint`; `None` when the collection cannot be reached. */
    method ReadFingerprint(prefer: Option<string>) returns (fp: Option<Fingerprint>)
      ensures fp.Some? ==> exists rows ::
                NoDuplicates(Names(rows)) && (forall n :: n in Names(rows) <==> n in snapshots)
                && fp.value == Fingerprint(index.points, Ordered(rows, prefer))
      ensures fp.Some? ==> NoDuplicates(fp.value.names) && forall n :: n in fp.value.names <==> n in snapshots
      ensures fp.Some? && Present(prefer) && prefer.value in snapshots ==> fp.value.names[0] == prefer.value
    {
      var reachable: bool := *;
      if !reachable {
        return None;
      }
      var rows := List();
      OrderedLists(rows, prefer);
      fp := Some(Fingerprint(index.points, Ordered(rows, prefer)));
    }

    method Create(issued: string, created: string) returns (ok: bool)
      modifies this
      ensures index == old(index)
      ensures snapshots == if ok then old(snapshots)[issued := Snapshot(created, index)] else old(snapshots)
    {
      ok := *;
      if ok {
        snapshots := snapshots[issued := Snapshot(created, index)];
      }
    }

    method Delete(name: string) returns (ok: bool)
      modifies this
      ensures index == old(index)
      ensures snapshots == if ok then old(snapshots) - {name} else old(snapshots)
    {
      ok := *;
      if ok {
        snapshots := snapshots - {name};
      }
    }

    method Recover(name: string) returns (ok: bool)
      requires name in snapshots
      modifies this
      ensures snapshots == old(snapshots)
      ensures index == old(index) || (ok && index == snapshots[name].content)
    {
      ok := *;
      var rolledBack: bool := *;
      if ok && rolledBack {
        index := snapshots[name].content;
      }
    }

    /** The two pruning loops; a failed deletion raises. */
    method Prune(strays: seq<string>, keep: string) returns (ok: bool)
      modifies this
      ensures index == old(index)
      ensures forall n :: n in snapshots ==> n in old(snapshots) && snapshots[n] == old(snapshots)[n]
      ensures forall n :: n in old(snapshots) && (n == keep || n !in strays) ==> n in snapshots
      ensures ok ==> forall n :: n in snapshots ==> n == keep || n !in strays
    {
      ok := true;
      for i := 0 to |strays|
        invariant index == old(index)
        invariant forall n :: n in snapshots ==> n in old(snapshots) && snapshots[n] == old(snapshots)[n]
        invariant forall n :: n in old(snapshots) && (n == keep || n !in strays) ==> n in snapshots
        invariant forall n :: n in snapshots && n in strays[..i] ==> n == keep
      {
        assert strays[..i + 1] == strays[..i] + [strays[i]];
        if strays[i] != keep {
          ok := Delete(strays[i]);
          if !ok {
            return;
          }
        }
      }
      assert strays[..|strays|] == strays;
    }

    /**
     `pin_snapshot`: re-adopt the recorded pin when name and count still match, else snapshot
     the live index; success leaves exactly the pin.
     */
    method PinSnapshot(keep: Option<string>, expected: Option<nat>, issued: string, created: string)
      returns (r: Result<Pin, ()>)
      requires issued !in snapshots
      modifies this
      ensures index == old(index)
      ensures forall n :: n in snapshots ==>
                (n in old(snapshots) && snapshots[n] == old(snapshots)[n]) || (n == issued && snapshots[n].content == index)
      ensures r.Ok? ==> r.value.points == Some(index.points) && r.value.name.Some? && snapshots.Keys == {r.value.name.value}
      ensures r.Ok? ==>
                if keep.Some? && keep.value != "" && keep.value in old(snapshots) && expected == Some(index.points)
                then r.value.name == keep
                else r.value.name == Some(issued) && snapshots[issued].content == index
    {
      var fp := ReadFingerprint(if Present(keep) then keep else None);
      if fp.None? {
        return Err(());
      }
      var names := fp.value.names;
      var ok;
      if Present(keep) && names != [] && names[0] == keep.value && expected == Some(fp.value.points) {
        ok := KeepOnly(names, names[0]);
        r := if ok then Ok(Pin(Some(fp.value.points), Some(names[0]))) else Err(());
      } else {
        ok := CreateOnly(names, issued, created);
        r := if ok then Ok(Pin(Some(fp.value.points), Some(issued))) else Err(());
      }
    }

    /** Delete every listed snapshot but one of them. */
    method KeepOnly(names: seq<string>, keep: string) returns (ok: bool)
      requires names != [] && names[0] == keep && keep in snapshots && forall n :: n in snapshots ==> n in names
      modifies this
      ensures index == old(index)
      ensures forall n :: n in snapshots ==> n in old(snapshots) && snapshots[n] == old(snapshots)[n]
      ensures ok ==> snapshots.Keys == {keep}
    {
      ok := Prune(names[1..], keep);
      assert forall n :: n in names ==> n == names[0] || n in names[1..];
    }

    /** Snapshot the live index under a new name, then delete the listed ones. */
    method CreateOnly(names: seq<string>, issued: string, created: string) returns (ok: bool)
      requires issued !in snapshots && forall n :: n in snapshots <==> n in names
      modifies this
      ensures index == old(index)
      ensures forall n :: n in snapshots ==>
                (n in old(snapshots) && snapshots[n] == old(snapshots)[n]) || (n == issued && snapshots[n].content == index)
      ensures ok ==> snapshots.Keys == {issued} && snapshots[issued].content == index
    {
      ok := Create(issued, created);
      if ok {
        ok := Prune(names, issued);
      }
    }

    /** `restore_snapshot`: roll back to the recorded pin and check the count afterwards. */
    method RestoreSnapshot(name: string, expected: Option<nat>) returns (r: Result<Pin, ()>)
      modifies this
      ensures snapshots == old(snapshots)
      ensures index == old(index) || (name in snapshots && index == snapshots[name].content)
      ensures r.Ok? ==> name in snapshots && r.value == Pin(Some(index.points), Some(name))
      ensures r.Ok? && expected.Some? ==> index.points == expected.value
    {
      var fp := ReadFingerprint(Some(name));
      if fp.None? || name !in fp.value.names {
        return Err(());
      }
      var ok := Recover(name);
      if !ok {
        return Err(());
      }
      var post := ReadFingerprint(Some(name));
      if post.None? || (expected.Some? && post.value.points != expected.value) {
        return Err(());
      }
      r := Ok(Pin(Some(post.value.points), Some(name)));
    }
  }

  // ---------------------------------------------------------------- histories

  /** `used` holds every snapshot name the server ever issued: it never issues one twice. */
  datatype World = World(index: Index, snapshots: map<string, Snapshot>, baseline: Option<Pin>, used: set<string>)

  datatype Event =
    | Gate(restore: Restore, evaluated: Option<Index>)
    | Record(restore: Restore, recorded: Option<Index>)
    | Outside

  predicate SnapshotsKept(w: World, w': World) {
    forall n :: n in w'.snapshots ==> n in w'.used && (n in w.snapshots || n !in w.used)
                                      && (n in w.snapshots ==> w'.snapshots[n].content == w.snapshots[n].content)
  }

  /** The baseline names a pin that still exists. */
  predicate HasPin(w: World) {
    w.baseline.Some? && Present(w.baseline.value.name) && w.baseline.value.name.value in w.snapshots
  }

  function PinContent(w: World): Index
    requires HasPin(w)
  {
    w.snapshots[w.baseline.value.name.value].content
  }

  /** The live index has the count the baseline recorded. */
  predicate CountsAgree(w: World) {
    w.baseline.Some? && w.baseline.value.points == Some(w.index.points)
  }

  /** A recovery of the recorded pin: it rolled the index back to it, or left the index alone. */
  predicate Recovered(w: World, w': World)
    requires HasPin(w)
  {
    w'.index == w.index || w'.index == PinContent(w)
  }

  /** What passes the check after a recovery has the recorded count. */
  predicate CountChecked(w: World, w': World)
    requires HasPin(w)
  {
    w.baseline.value.points.Some? ==> w'.index.points == w.baseline.value.points.value
  }

  predicate GateStep(w: World, restore: Restore, evaluated: Option<Index>, w': World) {
    && w'.snapshots == w.snapshots && w'.baseline == w.baseline && w'.used == w.used
    && (if restore == Never || !HasPin(w) || (restore == Drift && CountsAgree(w)) then w'.index == w.index else Recovered(w, w'))
    && (evaluated.Some? ==> evaluated.value == w'.index && w.baseline.Some?)
    && (evaluated.Some? && restore != Never ==> HasPin(w) && CountChecked(w, w'))
  }

  /** A record run pins the live index unless its policy skips or restores the recorded pin. */
  predicate PinsLive(w: World, restore: Restore) {
    restore != Never && !(HasPin(w) && (restore == Always || CountsAgree(w)))
  }

  predicate RecordStep(w: World, restore: Restore, recorded: Option<Index>, w': World) {
    && w.used <= w'.used && SnapshotsKept(w, w')
    && (!PinsLive(w, restore) ==> w'.snapshots == w.snapshots && w'.used == w.used)
    && (if restore == Always && HasPin(w) then Recovered(w, w') else w'.index == w.index)
    && (recorded.None? ==> w'.baseline == w.baseline)
    && (recorded.Some? ==>
          && recorded.value == w'.index
          && w'.baseline.Some? && w'.baseline.value.points == Some(w'.index.points)
          && (restore == Never ==> w'.baseline.value.name.None?)
          && (PinsLive(w, restore) ==> PinnedAnew(w, w'))
          && (restore != Never && !PinsLive(w, restore) ==>
                w'.baseline.value.name == w.baseline.value.name && CountChecked(w, w')))
  }

  /** The baseline's pin is a new snapshot of the recorded index, and the only one left. */
  predicate PinnedAnew(w: World, w': World) {
    && HasPin(w') && w'.baseline.value.name.value !in w.used
    && w'.snapshots.Keys == {w'.baseline.value.name.value} && PinContent(w') == w'.index
  }

  predicate OutsideStep(w: World, w': World) {
    w'.baseline == w.baseline && w.used <= w'.used && SnapshotsKept(w, w')
  }

  predicate Next(w: World, e: Event, w': World) {
    match e
    case Gate(restore, evaluated) => GateStep(w, restore, evaluated, w')
    case Record(restore, recorded) => RecordStep(w, restore, recorded, w')
    case Outside => OutsideStep(w, w')
  }

  /** The action the policy takes in a world, by what the world holds. */
  predicate Chosen(w: World, restore: Restore, recordMode: bool, action: Action) {
    match action
    case Skip(pinned) =>
      (restore == Never && pinned == None) || (restore == Drift && HasPin(w) && CountsAgree(w) && pinned == w.baseline.value.name)
    case RestorePin(name) =>
      && HasPin(w) && w.baseline.value.name == Some(name)
      && (restore == Always || (restore == Drift && !recordMode && !CountsAgree(w)))
    case PinLive => recordMode && PinsLive(w, restore)
    case Refuse => restore != Never && !recordMode && !HasPin(w)
  }

  /** What carrying out an action may do to a world, and the pin it yields. */
  predicate Acted(w: World, action: Action, pin: Result<Pin, ()>, w': World) {
    && w'.baseline == w.baseline && w.used <= w'.used && SnapshotsKept(w, w')
    && (action.PinLive? || (w'.snapshots == w.snapshots && w'.used == w.used))
    && match action
       case Refuse => w' == w && pin.Err?
       case Skip(pinned) => w' == w && pin == Ok(Pin(Some(w.index.points), pinned))
       case RestorePin(name) =>
         HasPin(w) && Recovered(w, w') && (pin.Ok? ==> CountChecked(w, w') && pin.value == Pin(Some(w'.index.points), Some(name)))
       case PinLive =>
         && w'.index == w.index
         && (pin.Ok? ==> pin.value.points == Some(w'.index.points)
                         && PinnedAnew(w, w'.(baseline := Some(pin.value))))
  }

  /** The harness main: policy, server operations, evaluation and the baseline file. */
  class Harness {
    const server: Server
    var baseline: Option<Pin>
    ghost var used: set<string>

    ghost function W(): World
      reads this, server
    {
      World(server.index, server.snapshots, baseline, used)
    }

    ghost predicate Valid()
      reads this, server
    {
      && server.snapshots.Keys <= used
      && (baseline.Some? && baseline.value.name.Some? ==> baseline.value.name.value in used)
      && "" !in used
    }

    constructor (server: Server)
      requires "" !in server.snapshots
      ensures Valid() && this.server == server && baseline == None && used == server.snapshots.Keys
    {
      this.server, baseline, used := server, None, server.snapshots.Keys;
    }

    /** Read the fingerprint and apply the policy; `None` when the server cannot be reached. */
    method Choose(restore: Restore, recordMode: bool) returns (choice: Option<Action>)
      requires Valid()
      ensures choice.Some? ==> Chosen(W(), restore, recordMode, choice.value)
    {
      var recorded := if baseline.Some? then baseline.value else Pin(None, None);
      var fp := server.ReadFingerprint(recorded.name);
      choice := if fp.None? then None else Some(Resolve(fp.value, recorded, restore, recordMode));
    }

    /** Carry out the chosen action; the pin it yields is the one to record. */
    method Act(action: Action, issued: string, created: string) returns (pin: Result<Pin, ()>)
      requires Valid() && issued !in used && issued != ""
      requires action.RestorePin? ==> HasPin(W()) && baseline.value.name == Some(action.name)
      requires action.PinLive? ==> !(HasPin(W()) && CountsAgree(W()))
      modifies this`used, server
      ensures Valid() && Acted(old(W()), action, pin, W())
    {
      var recorded := if baseline.Some? then baseline.value else Pin(None, None);
      match action
      case Refuse =>
        pin := Err(());
      case Skip(pinned) =>
        pin := Ok(Pin(Some(server.index.points), pinned));
      case RestorePin(name) =>
        pin := server.RestoreSnapshot(name, recorded.points);
      case PinLive =>
        used := used + {issued};
        pin := server.PinSnapshot(recorded.name, recorded.points, issued, created);
    }

    /**
     One run of `main`.  `issued` is the name the server would give a new snapshot; a run
     that evaluated nothing, or recorded nothing, reports `None`.
     */
    method RunOnce(restore: Restore, updateBaseline: bool, issued: string, created: string) returns (event: Event)
      requires Valid() && issued !in used && issued != ""
      modifies this, server
      ensures Valid() && Next(old(W()), event, W())
      ensures if updateBaseline then event.Record? && event.restore == restore else event.Gate? && event.restore == restore
    {
      var nothing := if updateBaseline then Record(restore, None) else Gate(restore, None);
      if baseline.None? && !updateBaseline {
        return nothing;
      }
      var choice := Choose(restore, updateBaseline);
      if choice.None? {
        return nothing;
      }
      var pin := Act(choice.value, issued, created);
      var evaluated: bool := *;
      if pin.Err? || !evaluated {
        return nothing;
      }
      if updateBaseline {
        baseline := Some(pin.value);
        event := Record(restore, Some(server.index));
      } else {
        event := Gate(restore, Some(server.index));
      }
    }
  }

  // ---------------------------------------------------------------- every history

  /** A history: worlds `ws[0..|es|]`, event `es[i]` taking `ws[i]` to `ws[i + 1]`, from no baseline. */
  ghost predicate IsHistory(ws: seq<World>, es: seq<Event>) {
    && |ws| == |es| + 1
    && ws[0].baseline.None? && ws[0].snapshots.Keys <= ws[0].used && "" !in ws[0].used
    && forall i :: 0 <= i < |es| ==> Next(ws[i], es[i], ws[i + 1])
  }

  /** The index whose evaluation made the baseline: that of the last record run that finished. */
  function LastRecorded(es: seq<Event>): Option<Index> {
    if es == [] then None
    else
      var last := es[|es| - 1];
      if last.Record? && last.recorded.Some? then last.recorded else LastRecorded(es[..|es| - 1])
  }

  ghost predicate Consistent(w: World, recorded: Option<Index>) {
    && w.snapshots.Keys <= w.used
    && (w.baseline.Some? <==> recorded.Some?)
    && (w.baseline.Some? ==>
          && w.baseline.value.points == Some(recorded.value.points)
          && (w.baseline.value.name.Some? ==>
                && w.baseline.value.name.value in w.used
                && (w.baseline.value.name.value in w.snapshots ==>
                      w.snapshots[w.baseline.value.name.value].content.points == recorded.value.points)))
  }

  lemma StepKeepsConsistent(w: World, e: Event, w': World, recorded: Option<Index>)
    requires Consistent(w, recorded) && Next(w, e, w')
    ensures Consistent(w', if e.Record? && e.recorded.Some? then e.recorded else recorded)
  {
  }

  lemma {:induction false} HistoryIsConsistent(ws: seq<World>, es: seq<Event>)
    requires IsHistory(ws, es)
    ensures Consistent(ws[|es|], LastRecorded(es))
  {
    if es != [] {
      var n := |es| - 1;
      assert forall i :: 0 <= i < n ==> es[..n][i] == es[i] && ws[..n + 1][i] == ws[i];
      HistoryIsConsistent(ws[..n + 1], es[..n]);
      assert Next(ws[n], es[n], ws[n + 1]);
      StepKeepsConsistent(ws[n], es[n], ws[n + 1], LastRecorded(es[..n]));
    }
  }

  /** The premise under which the points count identifies an index: no two live indices of the history share one. */
  ghost predicate CountIdentifies(ws: seq<World>) {
    forall i, j :: 0 <= i < |ws| && 0 <= j < |ws| && ws[i].index.points == ws[j].index.points ==> ws[i].index == ws[j].index
  }

  lemma {:induction false} RecordedWasLive(ws: seq<World>, es: seq<Event>) returns (j: nat)
    requires IsHistory(ws, es) && LastRecorded(es).Some?
    ensures j < |ws| && ws[j].index == LastRecorded(es).value
  {
    var n := |es| - 1;
    assert Next(ws[n], es[n], ws[n + 1]);
    if es[n].Record? && es[n].recorded.Some? {
      j := n + 1;
    } else {
      assert forall i :: 0 <= i < n ==> es[..n][i] == es[i] && ws[..n + 1][i] == ws[i];
      j := RecordedWasLive(ws[..n + 1], es[..n]);
    }
  }

  /**
   Over every history, a gate run under drift or always changes no snapshot, and what it
   evaluates has the count its baseline measured; where counts identify indices it is that
   very index.
   */
  lemma GateEvaluatesItsBaseline(ws: seq<World>, es: seq<Event>, k: nat)
    requires IsHistory(ws, es) && k < |es| && es[k].Gate?
    ensures ws[k + 1].snapshots == ws[k].snapshots && ws[k + 1].baseline == ws[k].baseline
    ensures es[k].evaluated.Some? && es[k].restore != Never ==>
              && LastRecorded(es[..k]).Some?
              && es[k].evaluated.value.points == LastRecorded(es[..k]).value.points
              && (CountIdentifies(ws) ==> es[k].evaluated == LastRecorded(es[..k]))
  {
    assert Next(ws[k], es[k], ws[k + 1]);
    assert forall i :: 0 <= i < k ==> es[..k][i] == es[i] && ws[..k + 1][i] == ws[i];
    HistoryIsConsistent(ws[..k + 1], es[..k]);
    assert ws[..k + 1][k] == ws[k];
    if es[k].evaluated.Some? && es[k].restore != Never {
      var j := RecordedWasLive(ws[..k + 1], es[..k]);
      assert ws[..k + 1][j] == ws[j];
    }
  }

  /** What a gate run under drift evaluates: the live index when the counts agree, else the recorded pin's. */
  function DriftTarget(w: World): Index
    requires HasPin(w)
  {
    if CountsAgree(w) then w.index else PinContent(w)
  }

  /** Whether the last record run that finished made a new pin. */
  ghost predicate PinIsFresh(ws: seq<World>, es: seq<Event>)
    requires |es| <= |ws|
    decreases |es|
  {
    es != [] &&
    var n := |es| - 1;
    if es[n].Record? && es[n].recorded.Some? then PinsLive(ws[n], es[n].restore) else PinIsFresh(ws, es[..n])
  }

  /** The history up to event `k` is a history. */
  lemma HistoryPrefix(ws: seq<World>, es: seq<Event>, k: nat)
    requires IsHistory(ws, es) && k <= |es|
    ensures IsHistory(ws[..k + 1], es[..k]) && ws[..k + 1][k] == ws[k] && Consistent(ws[k], LastRecorded(es[..k]))
  {
    forall i | 0 <= i < k
      ensures Next(ws[..k + 1][i], es[..k][i], ws[..k + 1][i + 1])
    {
      assert Next(ws[i], es[i], ws[i + 1]);
    }
    HistoryIsConsistent(ws[..k + 1], es[..k]);
  }

  /** A pin made anew holds, for as long as it exists, the very index that was recorded. */
  lemma {:induction false} FreshPinHoldsRecorded(ws: seq<World>, es: seq<Event>, k: nat)
    requires IsHistory(ws, es) && k <= |es| && PinIsFresh(ws, es[..k]) && HasPin(ws[k])
    ensures LastRecorded(es[..k]) == Some(PinContent(ws[k]))
  {
    var n := k - 1;
    assert es[..k][..n] == es[..n];
    assert Next(ws[n], es[n], ws[k]);
    if !(es[n].Record? && es[n].recorded.Some?) {
      HistoryPrefix(ws, es, n);
      FreshPinHoldsRecorded(ws, es, n);
    }
  }

  /**
   Exactly what a gate run under drift evaluates, and exactly when that is the index its
   baseline measured; with a pin made anew, unless the live index is another of the same count.
   */
  lemma GateUnderDrift(ws: seq<World>, es: seq<Event>, k: nat)
    requires IsHistory(ws, es) && k < |es| && es[k].Gate? && es[k].restore == Drift && es[k].evaluated.Some?
    ensures HasPin(ws[k]) && LastRecorded(es[..k]).Some?
    ensures es[k].evaluated == Some(DriftTarget(ws[k]))
    ensures es[k].evaluated == LastRecorded(es[..k])
            <==> (if ws[k].index.points == LastRecorded(es[..k]).value.points then ws[k].index else PinContent(ws[k]))
                 == LastRecorded(es[..k]).value
    ensures PinIsFresh(ws, es[..k]) ==>
              (es[k].evaluated == LastRecorded(es[..k]) <==>
                 (ws[k].index.points == LastRecorded(es[..k]).value.points ==> ws[k].index == LastRecorded(es[..k]).value))
  {
    assert Next(ws[k], es[k], ws[k + 1]);
    HistoryPrefix(ws, es, k);
    if PinIsFresh(ws, es[..k]) {
      FreshPinHoldsRecorded(ws, es, k);
    }
  }

  /**
   A gate run under always evaluates the recorded pin's index, or a live index of the same
   count that the server did not roll back.  Whatever the server does the run evaluates what
   its baseline measured, exactly when the pin holds that index and no other of its count is live.
   */
  lemma GateUnderAlways(ws: seq<World>, es: seq<Event>, k: nat)
    requires IsHistory(ws, es) && k < |es| && es[k].Gate? && es[k].restore == Always && es[k].evaluated.Some?
    ensures HasPin(ws[k]) && LastRecorded(es[..k]).Some?
    ensures es[k].evaluated == Some(PinContent(ws[k])) || (es[k].evaluated == Some(ws[k].index) && CountsAgree(ws[k]))
    ensures (forall w, x :: GateStep(ws[k], Always, Some(x), w) ==> Some(x) == LastRecorded(es[..k]))
            <==> LastRecorded(es[..k]) == Some(PinContent(ws[k]))
                 && (CountsAgree(ws[k]) ==> LastRecorded(es[..k]) == Some(ws[k].index))
    ensures PinIsFresh(ws, es[..k]) ==> LastRecorded(es[..k]) == Some(PinContent(ws[k]))
  {
    var w := ws[k];
    assert Next(w, es[k], ws[k + 1]);
    HistoryPrefix(ws, es, k);
    assert GateStep(w, Always, Some(PinContent(w)), w.(index := PinContent(w)));
    assert CountsAgree(w) ==> GateStep(w, Always, Some(w.index), w);
    if PinIsFresh(ws, es[..k]) {
      FreshPinHoldsRecorded(ws, es, k);
    }
  }

  /** The condition fails in some history: under drift two indices of one count pass for each other. */
  lemma EqualCountsAreNotTold()
    ensures exists ws, es: seq<Event> :: IsHistory(ws, es) && |es| == 3 && es[2].Gate? && es[2].restore == Drift
              && es[2].evaluated.Some? && LastRecorded(es[..2]).Some? && es[2].evaluated != LastRecorded(es[..2])
  {
    var a, b := Index(1, "a"), Index(1, "b");
    var pin := Pin(Some(1), Some("p"));
    var stored := map["p" := Snapshot("0", a)];
    var w0 := World(a, map[], None, {});
    var w1 := World(a, stored, Some(pin), {"p"});
    var w2 := World(b, stored, Some(pin), {"p"});
    var ws := [w0, w1, w2, w2];
    var es := [Record(Drift, Some(a)), Outside, Gate(Drift, Some(b))];
    assert Next(w0, es[0], w1) && Next(w1, es[1], w2) && Next(w2, es[2], w2);
    assert es[..2] == [es[0], es[1]];
    assert es[..2][..1] == [es[0]];
    assert LastRecorded(es[..2]) == LastRecorded(es[..2][..1]) == Some(a);
    assert IsHistory(ws, es);
  }
}
