/**
 Crash-safe preparation of a wheelhouse: members are replaced one by one and a marker is
 published last, so a crash at any write leaves a directory that a rerun completes.
 */
module WheelPreparation {
  import opened Prelude
  import opened Sorting

  /** A locked wheel: its file name and the SHA-256 of its bytes. */
  datatype Wheel = Wheel(name: string, sha: string)

  /** What a directory entry is; the source follows no symlink. */
  datatype Member = File(content: Bytes) | NotAFile

  type Directory = map<string, Member>

  const MARKER := ".task-complete"

  /** The lock of one profile, the identity its marker must name, and the uninterpreted hash and reader. */
  datatype Lock = Lock(
    wheels: seq<Wheel>, identity: string, markerBytes: Bytes, digest: Bytes -> string, readMarker: Bytes -> Option<string>)
  {
    predicate Valid() {
      && (forall i :: 0 <= i < |wheels| ==> IsWheelName(wheels[i].name))
      && readMarker(markerBytes) == Some(identity)
    }

    function Names(): (names: seq<string>)
      ensures |names| == |wheels|
      ensures forall i :: 0 <= i < |names| ==> names[i] == wheels[i].name
    {
      seq(|wheels|, i requires 0 <= i < |wheels| => wheels[i].name)
    }

    predicate Selected(name: string) {
      exists i :: 0 <= i < |wheels| && wheels[i].name == name
    }

    /** `name` is listed with this hash by its last entry, as in the source's dictionary. */
    predicate LockedAs(name: string, content: Bytes) {
      exists i :: 0 <= i < |wheels| && wheels[i] == Wheel(name, digest(content))
                  && forall j :: i < j < |wheels| ==> wheels[j].name != name
    }

    predicate Holds(d: Directory, name: string) {
      name in d && d[name].File? && LockedAs(name, d[name].content)
    }

    /** `verify_wheelhouse`: exactly the selected wheels, each with its locked bytes. */
    predicate Verified(d: Directory) {
      && (forall name :: name in d && IsWheelName(name) ==> Selected(name))
      && (forall i :: 0 <= i < |wheels| ==> Holds(d, wheels[i].name))
    }

    predicate Current(d: Directory) {
      MARKER in d && d[MARKER].File? && readMarker(d[MARKER].content) == Some(identity)
    }

    /** `_preparation_destination`: only regular files, only selected wheels and the marker. */
    predicate Acceptable(d: Directory) {
      forall name :: name in d ==> d[name].File? && (Selected(name) || name == MARKER)
    }

    /** The invariant: a current marker stands only over verified wheels. */
    predicate Sound(d: Directory) {
      Current(d) ==> Verified(d)
    }
  }

  predicate IsWheelName(name: string) {
    |name| > 4 && name[|name| - 4..] == ".whl"
  }

  lemma MarkerIsNoWheel()
    ensures !IsWheelName(MARKER)
  {
    assert MARKER[|MARKER| - 4..][0] == 'l';
  }

  // ---------------------------------------------------------------- staging

  /** A staged copy of one wheel: the present bytes when they match, else a download that must match. */
  function Staged(d: Directory, w: Wheel, digest: Bytes -> string, download: string -> Option<Bytes>): Option<Bytes> {
    if w.name in d && d[w.name].File? && digest(d[w.name].content) == w.sha then Some(d[w.name].content)
    else if download(w.name).Some? && digest(download(w.name).value) == w.sha then download(w.name)
    else None
  }

  predicate Stages(lock: Lock, d: Directory, download: string -> Option<Bytes>) {
    forall i :: 0 <= i < |lock.wheels| ==> Staged(d, lock.wheels[i], lock.digest, download).Some?
  }

  /** Selecting a wheel name twice is refused before anything is published. */
  ghost predicate Distinct(lock: Lock) {
    NoDuplicates(lock.Names())
  }

  /** A complete stage: the selected names, each with bytes of every hash its name is locked to. */
  predicate IsStage(lock: Lock, stage: map<string, Bytes>) {
    && (forall name :: name in stage ==> lock.Selected(name))
    && (forall i :: 0 <= i < |lock.wheels| ==>
          lock.wheels[i].name in stage && lock.digest(stage[lock.wheels[i].name]) == lock.wheels[i].sha)
  }

  // ---------------------------------------------------------------- the durable writes

  /** The states after each replacement of `order`, from `d` on. */
  function Replacements(d: Directory, stage: map<string, Bytes>, order: seq<string>): (states: seq<Directory>)
    requires forall i :: 0 <= i < |order| ==> order[i] in stage
    ensures |states| == |order|
    decreases |order|
  {
    if order == [] then []
    else
      var before, last := Replacements(d, stage, order[..|order| - 1]), order[|order| - 1];
      before + [Last(d, before)[last := File(stage[last])]]
  }

  function Last(d: Directory, states: seq<Directory>): Directory {
    if states == [] then d else states[|states| - 1]
  }

  /** The durable states of one run that publishes: marker gone, members replaced in sorted order, marker back. */
  function Trail(lock: Lock, d: Directory, stage: map<string, Bytes>): seq<Directory>
    requires IsStage(lock, stage)
  {
    OrderIsStaged(lock, stage);
    var bare := d - {MARKER};
    var replaced := Replacements(bare, stage, Order(lock));
    [bare] + replaced + [Last(bare, replaced)[MARKER := File(lock.markerBytes)]]
  }

  lemma TrailIs(lock: Lock, d: Directory, stage: map<string, Bytes>)
    requires IsStage(lock, stage)
    ensures forall i :: 0 <= i < |Order(lock)| ==> Order(lock)[i] in stage
    ensures var bare := d - {MARKER}; var replaced := Replacements(bare, stage, Order(lock));
            var last := Last(bare, replaced)[MARKER := File(lock.markerBytes)];
            Trail(lock, d, stage) == [bare] + replaced + [last] && Last(d, Trail(lock, d, stage)) == last
  {
    OrderIsStaged(lock, stage);
  }

  function Order(lock: Lock): seq<string> {
    Sort(TextLe, lock.Names())
  }

  lemma OrderIsStaged(lock: Lock, stage: map<string, Bytes>)
    requires IsStage(lock, stage)
    ensures forall i :: 0 <= i < |Order(lock)| ==> Order(lock)[i] in stage
    ensures forall name :: name in Order(lock) <==> name in stage
  {
    SortElements(TextLe, lock.Names());
    forall name | name in Order(lock)
      ensures name in stage
    {
      var i :| 0 <= i < |lock.Names()| && lock.Names()[i] == name;
      assert lock.wheels[i].name in stage;
    }
    forall name | name in stage
      ensures name in Order(lock)
    {
      var i :| 0 <= i < |lock.wheels| && lock.wheels[i].name == name;
      assert lock.Names()[i] == name;
    }
  }

  datatype Outcome = Refused | Reused | Failed | Published

  /** What one uninterrupted run decides, which finds `d` at first and `found` once its stage is complete. */
  ghost function OutcomeOf(lock: Lock, d: Directory, found: Directory, download: string -> Option<Bytes>): Outcome {
    if !lock.Acceptable(d) then Refused
    else if lock.Verified(d) && lock.Current(d) then Reused
    else if !Distinct(lock) || !Stages(lock, d, download) then Failed
    else if !lock.Acceptable(found) then Refused
    else Published
  }

  /** A stage as the directory it is. */
  function AsDirectory(stage: map<string, Bytes>): Directory {
    map name | name in stage :: File(stage[name])
  }

  /** What the staging loop has staged after `i` wheels. */
  ghost predicate StagedTo(lock: Lock, staged: map<string, Bytes>, i: nat)
    requires i <= |lock.wheels|
  {
    && (forall name :: name in staged ==> name in lock.Names()[..i])
    && forall k :: 0 <= k < i ==>
         lock.wheels[k].name in staged && lock.digest(staged[lock.wheels[k].name]) == lock.wheels[k].sha
  }

  lemma StagedStep(lock: Lock, staged: map<string, Bytes>, i: nat, copy: Bytes)
    requires Distinct(lock) && i < |lock.wheels| && StagedTo(lock, staged, i) && lock.digest(copy) == lock.wheels[i].sha
    ensures StagedTo(lock, staged[lock.wheels[i].name := copy], i + 1)
  {
    assert lock.Names()[..i + 1] == lock.Names()[..i] + [lock.wheels[i].name];
    assert forall k :: 0 <= k < i ==> lock.Names()[k] != lock.Names()[i];
  }

  lemma StagedAll(lock: Lock, staged: map<string, Bytes>)
    requires StagedTo(lock, staged, |lock.wheels|)
    ensures IsStage(lock, staged)
  {
    forall name | name in staged
      ensures lock.Selected(name)
    {
      var k :| 0 <= k < |lock.Names()| && lock.Names()[k] == name;
      assert lock.wheels[k].name == name;
    }
  }

  class Wheelhouse {
    const lock: Lock
    var members: Directory
    /** Every durable state so far: where a crash could have left the directory. */
    ghost var trail: seq<Directory>

    constructor (lock: Lock, members: Directory)
      ensures this.lock == lock && this.members == members && trail == [members]
    {
      this.lock, this.members, trail := lock, members, [members];
    }

    /** One durable write: a crash may come before or after it, never inside. */
    method Write(next: Directory)
      modifies this
      ensures members == next && trail == old(trail) + [next]
    {
      members := next;
      trail := trail + [next];
    }

    /** The duplicate-destination check of `acquire`. */
    method CheckDistinct() returns (distinct: bool)
      ensures distinct <==> Distinct(lock)
    {
      var seen: set<string> := {};
      for i := 0 to |lock.wheels|
        invariant forall name :: name in seen <==> name in lock.Names()[..i]
        invariant NoDuplicates(lock.Names()[..i])
      {
        var names := lock.Names();
        assert names[..i + 1] == names[..i] + [names[i]];
        NoDuplicatesSnoc(names[..i], names[i]);
        if names[i] in seen {
          assert names[..i + 1] <= names;
          return false;
        }
        seen := seen + {names[i]};
      }
      assert lock.Names()[..|lock.wheels|] == lock.Names();
      distinct := true;
    }

    /** Copy what matches, download the rest, check each; the destination is not touched. */
    method Stage(download: string -> Option<Bytes>) returns (stage: Option<map<string, Bytes>>)
      ensures stage.Some? <==> Distinct(lock) && Stages(lock, members, download)
      ensures stage.Some? ==> IsStage(lock, stage.value)
    {
      var distinct := CheckDistinct();
      if !distinct {
        return None;
      }
      var staged: map<string, Bytes> := map[];
      for i := 0 to |lock.wheels|
        invariant forall k :: 0 <= k < i ==> Staged(members, lock.wheels[k], lock.digest, download).Some?
        invariant StagedTo(lock, staged, i)
      {
        var w := lock.wheels[i];
        var copy := Staged(members, w, lock.digest, download);
        if copy.None? {
          return None;
        }
        StagedStep(lock, staged, i, copy.value);
        staged := staged[w.name := copy.value];
      }
      StagedAll(lock, staged);
      stage := Some(staged);
    }

    /** The replacement loop: members only, in sorted order. */
    method ReplaceAll(stage: map<string, Bytes>, order: seq<string>)
      requires forall i :: 0 <= i < |order| ==> order[i] in stage
      modifies this
      ensures trail == old(trail) + Replacements(old(members), stage, order)
      ensures members == Last(old(members), Replacements(old(members), stage, order))
    {
      ghost var start, before := members, trail;
      for i := 0 to |order|
        invariant trail == before + Replacements(start, stage, order[..i])
        invariant members == Last(start, Replacements(start, stage, order[..i]))
      {
        assert order[..i + 1][..i] == order[..i];
        Write(members[order[i] := File(stage[order[i]])]);
      }
      assert order[..|order|] == order;
    }

    /** The marker is dropped, then the members are replaced. */
    method Replace(stage: map<string, Bytes>)
      requires IsStage(lock, stage)
      modifies this
      ensures forall i :: 0 <= i < |Order(lock)| ==> Order(lock)[i] in stage
      ensures var bare := old(members) - {MARKER}; var replaced := Replacements(bare, stage, Order(lock));
              trail == old(trail) + ([bare] + replaced) && members == Last(bare, replaced)
    {
      OrderIsStaged(lock, stage);
      Write(members - {MARKER});
      ReplaceAll(stage, Order(lock));
    }

    /**
     From a complete stage: drop the marker, replace the members, verify what is there now, put
     the marker back.  With the directory to itself the run never fails that verification.
     */
    method Publish(stage: map<string, Bytes>) returns (verified: bool)
      requires lock.Valid() && Distinct(lock) && IsStage(lock, stage) && lock.Acceptable(members)
      modifies this
      ensures verified
      ensures trail == old(trail) + Trail(lock, old(members), stage)
      ensures members == Last(old(members), Trail(lock, old(members), stage))
    {
      ReplacedVerifies(lock, members, stage);
      ghost var start := members;
      Replace(stage);
      verified := lock.Verified(members);
      if verified {
        Write(members[MARKER := File(lock.markerBytes)]);
      }
      TrailIs(lock, start, stage);
    }

    /** What another process made of the directory while the stage was prepared. */
    method Meanwhile(found: Directory)
      modifies this
      ensures members == found && trail == old(trail) + if found == old(members) then [] else [found]
    {
      if found != members {
        Write(found);
      }
    }

    /**
     `prepare`, once it holds its lock; `found` is what it finds when it looks at the directory
     again.  It writes nothing unless a complete, verified stage meets an acceptable directory.
     */
    method Prepare(download: string -> Option<Bytes>, found: Directory)
      returns (outcome: Outcome, ghost stage: map<string, Bytes>)
      requires lock.Valid()
      modifies this
      ensures outcome == OutcomeOf(lock, old(members), found, download)
      ensures outcome == Reused || outcome == Failed || !lock.Acceptable(old(members)) ==>
                trail == old(trail) && members == old(members)
      ensures outcome == Refused && lock.Acceptable(old(members)) ==>
                members == found && trail == old(trail) + if found == old(members) then [] else [found]
      ensures outcome == Published ==>
                && IsStage(lock, stage) && lock.Acceptable(found)
                && trail == old(trail) + (if found == old(members) then [] else [found]) + Trail(lock, found, stage)
                && members == Last(found, Trail(lock, found, stage))
    {
      stage := map[];
      if !lock.Acceptable(members) {
        return Refused, stage;
      }
      if lock.Verified(members) && lock.Current(members) {
        return Reused, stage;
      }
      var staged := Stage(download);
      if staged.Some? {
        StageVerifies(lock, staged.value);
      }
      if staged.None? || !lock.Verified(AsDirectory(staged.value)) {
        return Failed, stage;
      }
      Meanwhile(found);
      if !lock.Acceptable(members) {
        return Refused, stage;
      }
      stage := staged.value;
      var _ := Publish(staged.value);
      outcome := Published;
    }
  }

  // ---------------------------------------------------------------- every crash point

  /** `d` as left by a run from `start`: selected wheels are as they were or locked, nothing else changed. */
  ghost predicate OldOrLocked(lock: Lock, start: Directory, d: Directory) {
    && (forall name :: name in d && name != MARKER ==>
          (name in start && d[name] == start[name])
          || (lock.Selected(name) && d[name].File?
              && forall i :: 0 <= i < |lock.wheels| && lock.wheels[i].name == name ==> lock.digest(d[name].content) == lock.wheels[i].sha))
    && (forall name :: name in start && name != MARKER ==> name in d)
  }

  /** `d` is the start with the members `done` taken from the stage. */
  ghost predicate Replaced(start: Directory, stage: map<string, Bytes>, done: seq<string>, d: Directory)
    requires forall name :: name in done ==> name in stage
  {
    && MARKER !in d
    && (forall name :: name in d <==> name in start || name in done)
    && (forall name :: name in done ==> d[name] == File(stage[name]))
    && (forall name :: name in d && name !in done ==> d[name] == start[name])
  }

  lemma ReplacedStep(start: Directory, stage: map<string, Bytes>, done: seq<string>, d: Directory, last: string)
    requires last in stage && last != MARKER && forall name :: name in done ==> name in stage
    requires Replaced(start, stage, done, d)
    ensures Replaced(start, stage, done + [last], d[last := File(stage[last])])
  {
  }

  lemma {:induction false} ReplacedSoFar(lock: Lock, start: Directory, stage: map<string, Bytes>, order: seq<string>, k: nat)
    requires IsStage(lock, stage) && MARKER !in start && k < |order|
    requires forall i :: 0 <= i < |order| ==> order[i] in stage
    requires forall i :: 0 <= i < |lock.wheels| ==> IsWheelName(lock.wheels[i].name)
    ensures Replaced(start, stage, order[..k + 1], Replacements(start, stage, order)[k])
    decreases |order|
  {
    var init, last := order[..|order| - 1], order[|order| - 1];
    var before := Replacements(start, stage, init);
    if k < |init| {
      ReplacedSoFar(lock, start, stage, init, k);
      assert init[..k + 1] == order[..k + 1];
    } else {
      assert order[..k + 1] == init + [last];
      MarkerIsNoWheel();
      assert lock.Selected(last);
      if init == [] {
        assert Replaced(start, stage, init, start);
      } else {
        ReplacedSoFar(lock, start, stage, init, |init| - 1);
        assert init[..|init|] == init;
      }
      ReplacedStep(start, stage, init, Last(start, before), last);
    }
  }

  /** After every member is replaced the directory holds the stage and, of the rest, what it held. */
  lemma ReplacedAll(lock: Lock, start: Directory, stage: map<string, Bytes>)
    requires lock.Valid() && IsStage(lock, stage) && MARKER !in start
    ensures forall i :: 0 <= i < |Order(lock)| ==> Order(lock)[i] in stage
    ensures var d := Last(start, Replacements(start, stage, Order(lock)));
      && MARKER !in d
      && (forall name :: name in d <==> name in start || name in stage)
      && (forall name :: name in stage ==> d[name] == File(stage[name]))
      && (forall name :: name in d && name !in stage ==> d[name] == start[name])
  {
    OrderIsStaged(lock, stage);
    var order := Order(lock);
    if order != [] {
      ReplacedSoFar(lock, start, stage, order, |order| - 1);
      assert order[..|order|] == order;
    }
  }

  /** The directory after `k` durable writes of a publishing run; `k == 0` is before the first. */
  function After(lock: Lock, start: Directory, stage: map<string, Bytes>, k: nat): Directory
    requires IsStage(lock, stage) && k <= |Trail(lock, start, stage)|
  {
    if k == 0 then start else Trail(lock, start, stage)[k - 1]
  }

  /**
   Crash safety: at every crash point of a run from a sound, acceptable directory the marker
   still vouches only for verified wheels, every wheel is as it was or locked, and no foreign
   member appeared.  Once the marker is dropped this needs no soundness at the start.
   */
  lemma CrashSafe(lock: Lock, start: Directory, stage: map<string, Bytes>, k: nat)
    requires lock.Valid() && Distinct(lock) && lock.Acceptable(start) && IsStage(lock, stage)
    requires k <= |Trail(lock, start, stage)|
    ensures k > 0 || lock.Sound(start) ==> lock.Sound(After(lock, start, stage, k))
    ensures OldOrLocked(lock, start, After(lock, start, stage, k))
    ensures lock.Acceptable(After(lock, start, stage, k))
  {
    AfterIs(lock, start, stage, k);
    if k <= 1 {
      BareIsSafe(lock, start);
    } else if k <= |Order(lock)| + 1 {
      MidwayIsSafe(lock, start, stage, k);
    } else {
      CompletedIsSafe(lock, start, stage);
    }
  }

  lemma MidwayIsSafe(lock: Lock, start: Directory, stage: map<string, Bytes>, k: nat)
    requires lock.Valid() && Distinct(lock) && lock.Acceptable(start) && IsStage(lock, stage)
    requires 2 <= k <= |Order(lock)| + 1 && k <= |Trail(lock, start, stage)|
    ensures var d := After(lock, start, stage, k); lock.Sound(d) && OldOrLocked(lock, start, d) && lock.Acceptable(d)
  {
    AfterIs(lock, start, stage, k);
    ReplacementSafe(lock, start, stage, k - 2);
  }

  /** Which write each crash point follows. */
  lemma AfterIs(lock: Lock, start: Directory, stage: map<string, Bytes>, k: nat)
    requires IsStage(lock, stage) && k <= |Trail(lock, start, stage)|
    ensures |Trail(lock, start, stage)| == |Order(lock)| + 2
    ensures k == 0 ==> After(lock, start, stage, k) == start
    ensures k == 1 ==> After(lock, start, stage, k) == start - {MARKER}
    ensures forall i :: 0 <= i < |Order(lock)| ==> Order(lock)[i] in stage
    ensures 2 <= k <= |Order(lock)| + 1
            ==> After(lock, start, stage, k) == Replacements(start - {MARKER}, stage, Order(lock))[k - 2]
    ensures k == |Order(lock)| + 2 ==> After(lock, start, stage, k) == Last(start, Trail(lock, start, stage))
  {
    OrderIsStaged(lock, stage);
  }

  lemma BareIsSafe(lock: Lock, start: Directory)
    requires lock.Acceptable(start)
    ensures lock.Sound(start - {MARKER}) && lock.Acceptable(start - {MARKER})
    ensures OldOrLocked(lock, start, start) && OldOrLocked(lock, start, start - {MARKER})
  {
  }

  lemma ReplacementSafe(lock: Lock, start: Directory, stage: map<string, Bytes>, i: nat)
    requires lock.Valid() && lock.Acceptable(start) && IsStage(lock, stage) && i < |Order(lock)|
    requires forall j :: 0 <= j < |Order(lock)| ==> Order(lock)[j] in stage
    ensures var d := Replacements(start - {MARKER}, stage, Order(lock))[i];
      lock.Sound(d) && OldOrLocked(lock, start, d) && lock.Acceptable(d)
  {
    var bare := start - {MARKER};
    ReplacedSoFar(lock, bare, stage, Order(lock), i);
    var d := Replacements(bare, stage, Order(lock))[i];
    assert forall name :: name in Order(lock)[..i + 1] ==> name in Order(lock);
    OrderIsStaged(lock, stage);
    MixedIsOldOrLocked(lock, start, stage, d);
  }

  lemma CompletedIsSafe(lock: Lock, start: Directory, stage: map<string, Bytes>)
    requires lock.Valid() && Distinct(lock) && lock.Acceptable(start) && IsStage(lock, stage)
    ensures var d := Last(start, Trail(lock, start, stage));
            lock.Sound(d) && OldOrLocked(lock, start, d) && lock.Acceptable(d)
  {
    CompletedIsTarget(lock, start, stage);
    CompletedIsOldOrLocked(lock, start, stage);
  }

  lemma CompletedIsOldOrLocked(lock: Lock, start: Directory, stage: map<string, Bytes>)
    requires lock.Valid() && lock.Acceptable(start) && IsStage(lock, stage)
    ensures var d := Last(start, Trail(lock, start, stage)); OldOrLocked(lock, start, d) && lock.Acceptable(d)
  {
    var bare := start - {MARKER};
    ReplacedAll(lock, bare, stage);
    MixedIsOldOrLocked(lock, start, stage, Last(bare, Replacements(bare, stage, Order(lock))));
  }

  /** A directory whose members are the start's, but for some taken from the stage. */
  lemma MixedIsOldOrLocked(lock: Lock, start: Directory, stage: map<string, Bytes>, d: Directory)
    requires lock.Valid() && lock.Acceptable(start) && IsStage(lock, stage) && MARKER !in d
    requires forall name :: name in start && name != MARKER ==> name in d
    requires forall name :: name in d ==> (name in stage && d[name] == File(stage[name])) || (name in start && d[name] == start[name])
    ensures OldOrLocked(lock, start, d) && lock.Acceptable(d) && lock.Sound(d)
    ensures OldOrLocked(lock, start, d[MARKER := File(lock.markerBytes)]) && lock.Acceptable(d[MARKER := File(lock.markerBytes)])
  {
  }

  /** Exactly the locked wheels and the current marker. */
  ghost predicate IsTarget(lock: Lock, d: Directory) {
    && lock.Verified(d) && lock.Current(d)
    && forall name :: name in d <==> name == MARKER || lock.Selected(name)
  }

  /** A directory of the stage and members of an acceptable one is verified, and is the target with its marker. */
  lemma FilledIsTarget(lock: Lock, start: Directory, stage: map<string, Bytes>, d: Directory)
    requires lock.Valid() && Distinct(lock) && lock.Acceptable(start) && IsStage(lock, stage)
    requires forall name :: name in d <==> (name in start && name != MARKER) || name in stage
    requires forall name :: name in stage ==> d[name] == File(stage[name])
    ensures lock.Verified(d) && IsTarget(lock, d[MARKER := File(lock.markerBytes)])
  {
    StageIsHeld(lock, stage, d);
    forall name | name in d
      ensures name == MARKER || lock.Selected(name)
    {
      if name in stage {
        assert lock.Selected(name);
      }
    }
    VerifiedFromHeld(lock, d);
    MarkedIsTarget(lock, d);
  }

  lemma VerifiedFromHeld(lock: Lock, d: Directory)
    requires forall name :: name in d ==> name == MARKER || lock.Selected(name)
    requires forall i :: 0 <= i < |lock.wheels| ==> lock.Holds(d, lock.wheels[i].name)
    ensures lock.Verified(d)
  {
    MarkerIsNoWheel();
  }

  lemma MarkedIsTarget(lock: Lock, d: Directory)
    requires lock.Valid() && lock.Verified(d) && forall name :: name in d ==> name == MARKER || lock.Selected(name)
    ensures IsTarget(lock, d[MARKER := File(lock.markerBytes)])
  {
    MarkerIsNoWheel();
    var marked := d[MARKER := File(lock.markerBytes)];
    forall i | 0 <= i < |lock.wheels|
      ensures lock.Holds(marked, lock.wheels[i].name)
    {
      assert lock.Holds(d, lock.wheels[i].name) && IsWheelName(lock.wheels[i].name);
    }
    VerifiedFromHeld(lock, marked);
    SelectedIsHeld(lock, d);
  }

  lemma SelectedIsHeld(lock: Lock, d: Directory)
    requires lock.Verified(d)
    ensures forall name :: lock.Selected(name) ==> name in d
  {
    forall name | lock.Selected(name)
      ensures name in d
    {
      var i :| 0 <= i < |lock.wheels| && lock.wheels[i].name == name;
      assert lock.Holds(d, lock.wheels[i].name);
    }
  }

  /** So the verification before the marker is put back passes. */
  lemma ReplacedVerifies(lock: Lock, start: Directory, stage: map<string, Bytes>)
    requires lock.Valid() && Distinct(lock) && lock.Acceptable(start) && IsStage(lock, stage)
    ensures forall i :: 0 <= i < |Order(lock)| ==> Order(lock)[i] in stage
    ensures var bare := start - {MARKER};
            lock.Verified(Last(bare, Replacements(bare, stage, Order(lock))))
  {
    var bare := start - {MARKER};
    ReplacedAll(lock, bare, stage);
    FilledIsTarget(lock, start, stage, Last(bare, Replacements(bare, stage, Order(lock))));
  }

  lemma StageVerifies(lock: Lock, stage: map<string, Bytes>)
    requires Distinct(lock) && IsStage(lock, stage)
    ensures lock.Verified(AsDirectory(stage))
  {
    StageIsHeld(lock, stage, AsDirectory(stage));
  }

  lemma CompletedIsTarget(lock: Lock, start: Directory, stage: map<string, Bytes>)
    requires lock.Valid() && Distinct(lock) && lock.Acceptable(start) && IsStage(lock, stage)
    ensures IsTarget(lock, Last(start, Trail(lock, start, stage)))
  {
    var bare := start - {MARKER};
    ReplacedAll(lock, bare, stage);
    FilledIsTarget(lock, start, stage, Last(bare, Replacements(bare, stage, Order(lock))));
  }

  lemma StageIsHeld(lock: Lock, stage: map<string, Bytes>, d: Directory)
    requires Distinct(lock) && IsStage(lock, stage) && forall name :: name in stage ==> name in d && d[name] == File(stage[name])
    ensures forall i :: 0 <= i < |lock.wheels| ==> lock.Holds(d, lock.wheels[i].name)
    ensures forall name :: name in stage <==> lock.Selected(name)
  {
  }

  predicate Downloads(lock: Lock, download: string -> Option<Bytes>) {
    forall i :: 0 <= i < |lock.wheels| ==>
      download(lock.wheels[i].name).Some? && lock.digest(download(lock.wheels[i].name).value) == lock.wheels[i].sha
  }

  /**
   Recovery: from any crash point of any run, an uninterrupted run whose downloads are the
   locked wheels ends with exactly the locked wheels and the marker.
   */
  lemma RerunCompletes(
    lock: Lock, start: Directory, stage: map<string, Bytes>, k: nat, download: string -> Option<Bytes>,
    found: Directory, stage': map<string, Bytes>)
    requires lock.Valid() && Distinct(lock) && lock.Acceptable(start) && IsStage(lock, stage) && IsStage(lock, stage')
    requires k <= |Trail(lock, start, stage)| && Downloads(lock, download) && lock.Acceptable(found)
    ensures var crashed := After(lock, start, stage, k);
      match OutcomeOf(lock, crashed, found, download)
      case Reused => IsTarget(lock, crashed)
      case Published => IsTarget(lock, Last(found, Trail(lock, found, stage')))
      case _ => false
  {
    var crashed := After(lock, start, stage, k);
    CrashSafe(lock, start, stage, k);
    assert Stages(lock, crashed, download);
    if OutcomeOf(lock, crashed, found, download) == Reused {
      forall name
        ensures name in crashed <==> name == MARKER || lock.Selected(name)
      {
        if lock.Selected(name) {
          var i :| 0 <= i < |lock.wheels| && lock.wheels[i].name == name;
          assert lock.Holds(crashed, lock.wheels[i].name);
        }
      }
    } else {
      CompletedIsTarget(lock, found, stage');
    }
  }
}
