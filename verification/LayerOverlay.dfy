/**
 The image inventory's pass over OCI layers.  `Lookup` is the reference: it resolves one
 path of the final image from the top layer down ("Whiteouts" and "Opaque Whiteout", OCI
 Image Format Specification, layer.md).  The pass goes bottom up and remembers only wanted
 files and links.
 */
module LayerOverlay {
  import opened Prelude

  // ---------------------------------------------------------------- paths

  /** Components of a normalised path; the image root is `[]`, which the source writes ".". */
  type Path = seq<string>

  predicate IsComponent(c: string) {
    c != "" && c != "." && '/' !in c
  }

  predicate IsPath(p: Path) {
    forall i :: 0 <= i < |p| ==> IsComponent(p[i])
  }

  function Slashed(p: Path): string {
    if p == [] then "" else p[0] + "/" + Slashed(p[1..])
  }

  function PathText(p: Path): string {
    if p == [] then "." else var s := Slashed(p); SlashedEnds(p); s[..|s| - 1]
  }

  lemma {:induction false} SlashedEnds(p: Path)
    requires p != []
    ensures Slashed(p) != "" && Slashed(p)[|Slashed(p)| - 1] == '/'
  {
    if |p| > 1 {
      SlashedEnds(p[1..]);
    }
  }

  /** The source's test: equal, or starting with the target's text and a slash (anything, for the root). */
  predicate TextUnder(path: string, target: string) {
    path == target || (if target == "." then "" else target + "/") <= path
  }

  lemma {:induction false} SlashedPrefix(t: Path, p: Path)
    requires IsPath(t) && IsPath(p)
    ensures Slashed(t) <= Slashed(p) <==> t <= p
  {
    if t == [] {
    } else if p == [] {
      SlashedEnds(t);
    } else {
      SlashedPrefix(t[1..], p[1..]);
      var a, x, b, y := t[0], Slashed(t[1..]), p[0], Slashed(p[1..]);
      if a == b {
        assert Slashed(t)[|a| + 1..] == x && Slashed(p)[|a| + 1..] == y;
        assert x <= y ==> Slashed(t) <= Slashed(p);
        assert Slashed(t) <= Slashed(p) ==> x <= y;
        assert t == [a] + t[1..] && p == [a] + p[1..];
      } else {
        FirstComponentDiffers(a, b, x, y);
      }
    }
  }

  lemma FirstComponentDiffers(a: string, b: string, x: string, y: string)
    requires IsComponent(a) && IsComponent(b) && a != b
    ensures !(a + "/" + x <= b + "/" + y)
  {
    var s, r := a + "/" + x, b + "/" + y;
    assert s[|a|] == '/' && r[|b|] == '/';
    if |a| < |b| {
      assert r[|a|] == b[|a|] != '/';
    } else if |b| < |a| {
      assert s[|b|] == a[|b|] != '/';
    } else {
      assert s[..|a|] == a && r[..|a|] == b;
    }
  }

  lemma WithSlash(a: string, b: string)
    ensures a + "/" <= b + "/" <==> b == a || a + "/" <= b
  {
    if a + "/" <= b + "/" && |a| == |b| {
      assert a == (a + "/")[..|a|] == (b + "/")[..|a|] == b;
    } else if a + "/" <= b + "/" {
      assert (b + "/")[..|a| + 1] == b[..|a| + 1];
    }
  }

  lemma TextUnderBelowRoot(t: Path, p: Path)
    requires IsPath(t) && IsPath(p) && t != [] && p != []
    ensures PathText(p) == PathText(t) || PathText(t) + "/" <= PathText(p) <==> t <= p
  {
    SlashedIsText(t);
    SlashedIsText(p);
    SlashedPrefix(t, p);
    WithSlash(PathText(t), PathText(p));
  }

  /** The string test is ancestry of component paths: "a" is above "a/b" and not above "ab". */
  lemma TextUnderIsPrefix(t: Path, p: Path)
    requires IsPath(t) && IsPath(p)
    ensures TextUnder(PathText(p), PathText(t)) <==> t <= p
  {
    if t != [] {
      NotDot(t);
      if p != [] {
        TextUnderBelowRoot(t, p);
      } else {
        assert |PathText(t) + "/"| > 1;
      }
    }
  }

  lemma {:induction false} SlashedIsText(p: Path)
    requires p != []
    ensures Slashed(p) == PathText(p) + "/" && PathText(p) == Slashed(p)[..|Slashed(p)| - 1]
  {
    SlashedEnds(p);
  }

  lemma NotDot(p: Path)
    requires IsPath(p) && p != []
    ensures PathText(p) != "."
  {
  }

  function Name(p: Path): string {
    if p == [] then "" else p[|p| - 1]
  }

  function Parent(p: Path): Path {
    if p == [] then [] else p[..|p| - 1]
  }

  predicate EndsWith(s: string, suffix: string) {
    |suffix| <= |s| && s[|s| - |suffix|..] == suffix
  }

  const RECEIPT: Path := ["opt", "rag-locks", "installed-inventory.json"]
  const LOCK: Path := ["opt", "rag-locks", "locks", "cp314-linux-x86_64.json"]
  const REQUIREMENTS: Path := ["opt", "rag-locks", "requirements.lock.txt"]

  predicate PackageMetadata(p: Path) {
    && ((exists i :: 0 < i < |p| - 1 && (p[i] == "site-packages" || p[i] == "dist-packages"))
        || (|p| > 2 && p[0] == "app" && p[1] == "src"))
    && (EndsWith(Name(p), ".egg-info")
        || (|p| > 1 && Name(p) == "METADATA" && EndsWith(p[|p| - 2], ".dist-info"))
        || (|p| > 1 && Name(p) == "PKG-INFO" && EndsWith(p[|p| - 2], ".egg-info")))
  }

  predicate WantedName(p: Path) {
    p == RECEIPT || p == LOCK || p == REQUIREMENTS || PackageMetadata(p)
  }

  // ---------------------------------------------------------------- layer members

  datatype Kind = Directory | Regular | SymLink | HardLink | Other

  datatype Item = Item(absolute: bool, parts: Path, kind: Kind, size: nat, content: Bytes)

  datatype Entry =
    | Whiteout(path: Path)
    | Opaque(directory: Path)
    | Node(path: Path, kind: Kind, content: Bytes)

  datatype Refusal = UnsafePath | BadWhiteout | UnboundedMetadata | TraversesLink

  predicate IsLink(k: Kind) {
    k.SymLink? || k.HardLink?
  }

  predicate Wanted(p: Path, k: Kind) {
    p == RECEIPT || p == LOCK || p == REQUIREMENTS
    || (PackageMetadata(p) && !(k.Directory? && EndsWith(Name(p), ".egg-info")))
  }

  /** `path_name`, the whiteout names, and the bound on wanted members. */
  function Decode(item: Item): Result<Entry, Refusal> {
    var p := item.parts;
    if item.absolute || ".." in p then Err(UnsafePath)
    else if ".wh." <= Name(p) then
      if Name(p) == ".wh..wh..opq" then Ok(Opaque(Parent(p)))
      else if Name(p)[4..] == "" || Name(p)[4..] == "." then Err(BadWhiteout)
      else Ok(Whiteout(Parent(p) + [Name(p)[4..]]))
    else if Wanted(p, item.kind) && (!item.kind.Regular? || item.size > 8_000_000) then Err(UnboundedMetadata)
    else Ok(Node(p, item.kind, item.content))
  }

  predicate AllDecode(items: seq<Item>) {
    forall i :: 0 <= i < |items| ==> Decode(items[i]).Ok?
  }

  function Entries(items: seq<Item>): (es: seq<Entry>)
    requires AllDecode(items)
    ensures |es| == |items|
    ensures forall i :: 0 <= i < |items| ==> es[i] == Decode(items[i]).value
  {
    seq(|items|, i requires 0 <= i < |items| => Decode(items[i]).value)
  }

  // ---------------------------------------------------------------- the reference overlay

  datatype Fate = Absent | Present(kind: Kind, content: Bytes)

  ghost predicate Hides(layer: seq<Entry>, p: Path) {
    exists e :: e in layer && HiddenBy(e, p)
  }

  predicate HiddenBy(e: Entry, p: Path) {
    match e
    case Whiteout(target) => target <= p
    case Opaque(directory) => directory < p
    case Node(path, kind, _) => !kind.Directory? && path < p
  }

  ghost predicate HasNode(layer: seq<Entry>, p: Path) {
    exists e :: e in layer && e.Node? && e.path == p
  }

  /** What the image, seen from its top layer down, holds at a path. */
  ghost function Lookup(layers: seq<seq<Entry>>, p: Path): Fate {
    if layers == [] then Absent
    else
      var top := layers[|layers| - 1];
      if HasNode(top, p) then
        var e :| e in top && e.Node? && e.path == p;
        Present(e.kind, e.content)
      else if Hides(top, p) then Absent
      else Lookup(layers[..|layers| - 1], p)
  }

  /** No path twice, a directory at the root, and an entry for every opaque directory. */
  ghost predicate WellFormed(layer: seq<Entry>) {
    && (forall i, j :: 0 <= i < j < |layer| && layer[i].Node? && layer[j].Node? ==> layer[i].path != layer[j].path)
    && (forall e :: e in layer && e.Node? && e.path == [] ==> e.kind.Directory?)
    && (forall e :: e in layer && e.Opaque? && e.directory != [] ==>
          exists d :: d in layer && d.Node? && d.path == e.directory && d.kind.Directory?)
  }

  // ---------------------------------------------------------------- the pass

  datatype Changes = Changes(
    additions: map<Path, Bytes>, newLinks: set<Path>, replacements: set<Path>,
    removals: set<Path>, directories: set<Path>)

  /** The effect of one decoded member on the per-layer sets. */
  function Note(c: Changes, e: Entry): Changes {
    match e
    case Whiteout(p) => c.(removals := c.removals + {p})
    case Opaque(p) => c.(removals := c.removals + {p})
    case Node(p, kind, content) =>
      var c := if kind.Directory? then c.(directories := c.directories + {p})
               else c.(replacements := c.replacements + {p});
      var c := if IsLink(kind) then c.(newLinks := c.newLinks + {p}) else c;
      if Wanted(p, kind) then c.(additions := c.additions[p := content]) else c
  }

  function ChangesOf(layer: seq<Entry>): Changes {
    if layer == [] then Changes(map[], {}, {}, {}, {})
    else Note(ChangesOf(layer[..|layer| - 1]), layer[|layer| - 1])
  }

  /** Every wanted node of a decoded layer is a regular file. */
  ghost predicate Bounded(layer: seq<Entry>) {
    forall e :: e in layer && e.Node? && Wanted(e.path, e.kind) ==> e.kind.Regular?
  }

  lemma ScanStep(items: seq<Item>, i: nat)
    requires i < |items| && AllDecode(items[..i]) && Decode(items[i]).Ok?
    ensures AllDecode(items[..i + 1])
    ensures ChangesOf(Entries(items[..i + 1])) == Note(ChangesOf(Entries(items[..i])), Decode(items[i]).value)
  {
    var es := Entries(items[..i + 1]);
    assert es[..i] == Entries(items[..i]);
  }

  method ScanLayer(items: seq<Item>) returns (r: Result<Changes, Refusal>)
    ensures r.Ok? <==> AllDecode(items)
    ensures r.Ok? ==> r.value == ChangesOf(Entries(items))
    ensures r.Err? ==> !r.error.TraversesLink?
  {
    var additions: map<Path, Bytes> := map[];
    var newLinks, replacements, removals, directories: set<Path> := {}, {}, {}, {};
    for i := 0 to |items|
      invariant AllDecode(items[..i])
      invariant Changes(additions, newLinks, replacements, removals, directories) == ChangesOf(Entries(items[..i]))
    {
      var decoded := Decode(items[i]);
      if decoded.Err? {
        return Err(decoded.error);
      }
      ScanStep(items, i);
      match decoded.value {
        case Whiteout(p) => removals := removals + {p};
        case Opaque(p) => removals := removals + {p};
        case Node(p, kind, content) =>
          if kind.Directory? {
            directories := directories + {p};
          } else {
            replacements := replacements + {p};
          }
          if IsLink(kind) {
            newLinks := newLinks + {p};
          }
          if Wanted(p, kind) {
            additions := additions[p := content];
          }
      }
    }
    assert items[..|items|] == items;
    r := Ok(Changes(additions, newLinks, replacements, removals, directories));
  }

  ghost predicate Cleared(targets: set<Path>, p: Path) {
    exists t :: t in targets && t <= p
  }

  /** Removals and replacements in whatever order the set yields them. */
  method RemoveAll(targets: set<Path>, retained0: map<Path, Bytes>, links0: set<Path>)
    returns (retained: map<Path, Bytes>, links: set<Path>)
    ensures forall p :: p in retained <==> p in retained0 && !Cleared(targets, p)
    ensures forall p :: p in retained ==> retained[p] == retained0[p]
    ensures forall p :: p in links <==> p in links0 && !Cleared(targets, p)
  {
    retained, links := retained0, links0;
    var left := targets;
    while left != {}
      invariant left <= targets
      invariant forall p :: p in retained <==> p in retained0 && !Cleared(targets - left, p)
      invariant forall p :: p in retained ==> retained[p] == retained0[p]
      invariant forall p :: p in links <==> p in links0 && !Cleared(targets - left, p)
    {
      var target :| target in left;
      ghost var before := left;
      left := left - {target};
      assert targets - left == (targets - before) + {target};
      assert forall p :: Cleared(targets - left, p) <==> Cleared(targets - before, p) || target <= p;
      retained := map p | p in retained && !(target <= p) :: retained[p];
      links := set p | p in links && !(target <= p);
    }
    assert targets - left == targets;
  }

  ghost predicate WantedFile(layers: seq<seq<Entry>>, p: Path) {
    WantedName(p) && Lookup(layers, p).Present? && Lookup(layers, p).kind.Regular?
  }

  ghost predicate LinkAt(layers: seq<seq<Entry>>, p: Path) {
    Lookup(layers, p).Present? && IsLink(Lookup(layers, p).kind)
  }

  /** `retained` and `links` are the projections of the final image of `layers`. */
  ghost predicate Agrees(layers: seq<seq<Entry>>, retained: map<Path, Bytes>, links: set<Path>) {
    && (forall p :: p in retained <==> WantedFile(layers, p))
    && (forall p :: p in retained ==> Lookup(layers, p) == Present(Regular, retained[p]))
    && (forall p :: p in links <==> LinkAt(layers, p))
  }

  /** One layer over the state so far: what is left at a path after the three updates. */
  ghost predicate Applied(
    c: Changes, retained0: map<Path, Bytes>, links0: set<Path>, retained: map<Path, Bytes>, links: set<Path>)
  {
    var targets := c.removals + c.replacements;
    && (forall p :: p in retained <==>
          p in c.additions || (p in retained0 && !Cleared(targets, p) && p !in c.directories))
    && (forall p :: p in retained ==>
          retained[p] == if p in c.additions then c.additions[p] else if p in retained0 then retained0[p] else [])
    && (forall p :: p in links <==>
          p in c.newLinks || (p in links0 && !Cleared(targets, p) && p !in c.directories))
  }

  predicate AllDecodable(layers: seq<seq<Item>>) {
    forall i :: 0 <= i < |layers| ==> AllDecode(layers[i])
  }

  ghost predicate AllWellFormed(layers: seq<seq<Entry>>) {
    forall i :: 0 <= i < |layers| ==> WellFormed(layers[i])
  }

  function Decoded(layers: seq<seq<Item>>): (ds: seq<seq<Entry>>)
    requires AllDecodable(layers)
    ensures |ds| == |layers|
    ensures forall i :: 0 <= i < |layers| ==> ds[i] == Entries(layers[i])
  {
    seq(|layers|, i requires 0 <= i < |layers| => Entries(layers[i]))
  }

  method ApplyLayer(c: Changes, retained0: map<Path, Bytes>, links0: set<Path>)
    returns (retained: map<Path, Bytes>, links: set<Path>)
    ensures Applied(c, retained0, links0, retained, links)
  {
    retained, links := RemoveAll(c.removals + c.replacements, retained0, links0);
    retained := map p | p in retained && p !in c.directories :: retained[p];
    links := links - c.directories;
    retained, links := retained + c.additions, links + c.newLinks;
  }

  /** For well-formed layers the state is the projection of the image they make. */
  ghost predicate Projects(layers: seq<seq<Item>>, retained: map<Path, Bytes>, links: set<Path>)
    requires AllDecodable(layers)
  {
    AllWellFormed(Decoded(layers)) ==> Agrees(Decoded(layers), retained, links)
  }

  lemma OneMoreDecodes(layers: seq<seq<Item>>, i: nat)
    requires i < |layers| && AllDecodable(layers[..i])
    ensures AllDecodable(layers[..i + 1]) <==> AllDecode(layers[i])
    ensures !AllDecode(layers[i]) ==> !AllDecodable(layers)
  {
    assert forall k :: 0 <= k < i ==> layers[..i + 1][k] == layers[..i][k];
    assert layers[..i + 1][i] == layers[i];
  }

  lemma ProjectsStep(
    layers: seq<seq<Item>>, i: nat, retained0: map<Path, Bytes>, links0: set<Path>, retained: map<Path, Bytes>, links: set<Path>)
    requires i < |layers| && AllDecodable(layers[..i]) && AllDecode(layers[i]) && AllDecodable(layers[..i + 1])
    requires Projects(layers[..i], retained0, links0)
    requires Applied(ChangesOf(Entries(layers[i])), retained0, links0, retained, links)
    ensures Projects(layers[..i + 1], retained, links)
  {
    var all, top := Decoded(layers[..i + 1]), Entries(layers[i]);
    if AllWellFormed(all) {
      assert all == Decoded(layers[..i]) + [top];
      assert all[i] == top && forall k :: 0 <= k < i ==> all[k] == Decoded(layers[..i])[k];
      LayerStep(Decoded(layers[..i]), top, retained0, links0, retained, links);
    }
  }

  /**
   `inventory`'s layer loop and its link check.  For layers of well-formed members the kept
   files and links are those of the final image, and acceptance means that no wanted file of
   that image lies at or under one of its links.
   */
  method Inventory(layers: seq<seq<Item>>) returns (r: Result<map<Path, Bytes>, Refusal>)
    ensures r.Err? && r.error != TraversesLink <==> !AllDecodable(layers)
    ensures r.Ok? && AllWellFormed(Decoded(layers)) ==>
              && !ImageTraverses(Decoded(layers))
              && (forall p :: p in r.value <==> WantedFile(Decoded(layers), p))
              && (forall p :: p in r.value ==> Lookup(Decoded(layers), p) == Present(Regular, r.value[p]))
    ensures r.Err? && r.error == TraversesLink && AllWellFormed(Decoded(layers)) ==> ImageTraverses(Decoded(layers))
  {
    var retained: map<Path, Bytes> := map[];
    var links: set<Path> := {};
    for i := 0 to |layers|
      invariant AllDecodable(layers[..i]) && Projects(layers[..i], retained, links)
    {
      OneMoreDecodes(layers, i);
      var scan := ScanLayer(layers[i]);
      if scan.Err? {
        return Err(scan.error);
      }
      var kept, linked := ApplyLayer(scan.value, retained, links);
      ProjectsStep(layers, i, retained, links, kept, linked);
      retained, links := kept, linked;
    }
    assert layers[..|layers|] == layers;
    r := if Traverses(retained, links) then Err(TraversesLink) else Ok(retained);
    if AllWellFormed(Decoded(layers)) {
      TraversesInImage(Decoded(layers), retained, links);
    }
  }

  /** The link check: the source compares texts, so the root "." is above no other path. */
  predicate Traverses(retained: map<Path, Bytes>, links: set<Path>) {
    exists p, l :: p in retained && l in links && (p == l || (l != [] && l < p))
  }

  ghost predicate ImageTraverses(layers: seq<seq<Entry>>) {
    exists p, l :: WantedFile(layers, p) && LinkAt(layers, l) && l <= p
  }

  lemma TraversesInImage(layers: seq<seq<Entry>>, retained: map<Path, Bytes>, links: set<Path>)
    requires AllWellFormed(layers) && Agrees(layers, retained, links)
    ensures Traverses(retained, links) <==> ImageTraverses(layers)
  {
    RootIsNoLink(layers);
    if Traverses(retained, links) {
      var p, l :| p in retained && l in links && (p == l || (l != [] && l < p));
      assert WantedFile(layers, p) && LinkAt(layers, l) && l <= p;
    }
    if ImageTraverses(layers) {
      var p, l :| WantedFile(layers, p) && LinkAt(layers, l) && l <= p;
      assert p in retained && l in links && (p == l || (l != [] && l < p));
    }
  }

  // ---------------------------------------------------------------- the pass is the overlay's projection

  ghost predicate HasKind(layer: seq<Entry>, p: Path, kinds: set<Kind>) {
    exists e :: e in layer && e.Node? && e.path == p && e.kind in kinds
  }

  lemma HasKindGrows(layer: seq<Entry>, last: Entry, p: Path, kinds: set<Kind>)
    ensures HasKind(layer + [last], p, kinds)
       <==> HasKind(layer, p, kinds) || (last.Node? && last.path == p && last.kind in kinds)
  {
  }

  const LINKS := {SymLink, HardLink}
  const REPLACING := {Regular, SymLink, HardLink, Other}

  lemma {:induction false} RemovalsAt(layer: seq<Entry>, p: Path)
    ensures p in ChangesOf(layer).removals <==> Whiteout(p) in layer || Opaque(p) in layer
  {
    if layer != [] {
      var init, last := layer[..|layer| - 1], layer[|layer| - 1];
      assert layer == init + [last];
      RemovalsAt(init, p);
    }
  }

  lemma {:induction false} DirectoriesAt(layer: seq<Entry>, p: Path)
    ensures p in ChangesOf(layer).directories <==> HasKind(layer, p, {Directory})
  {
    if layer != [] {
      var init, last := layer[..|layer| - 1], layer[|layer| - 1];
      assert layer == init + [last];
      DirectoriesAt(init, p);
      HasKindGrows(init, last, p, {Directory});
    }
  }

  lemma {:induction false} ReplacementsAt(layer: seq<Entry>, p: Path)
    ensures p in ChangesOf(layer).replacements <==> HasKind(layer, p, REPLACING)
  {
    if layer != [] {
      var init, last := layer[..|layer| - 1], layer[|layer| - 1];
      assert layer == init + [last];
      ReplacementsAt(init, p);
      HasKindGrows(init, last, p, REPLACING);
    }
  }

  lemma {:induction false} LinksAt(layer: seq<Entry>, p: Path)
    ensures p in ChangesOf(layer).newLinks <==> HasKind(layer, p, LINKS)
  {
    if layer != [] {
      var init, last := layer[..|layer| - 1], layer[|layer| - 1];
      assert layer == init + [last];
      LinksAt(init, p);
      HasKindGrows(init, last, p, LINKS);
    }
  }

  lemma {:induction false} AdditionsAt(layer: seq<Entry>, p: Path)
    requires Bounded(layer)
    ensures p in ChangesOf(layer).additions <==> WantedName(p) && HasKind(layer, p, {Regular})
    ensures p in ChangesOf(layer).additions ==> Node(p, Regular, ChangesOf(layer).additions[p]) in layer
  {
    if layer != [] {
      var init, last := layer[..|layer| - 1], layer[|layer| - 1];
      assert layer == init + [last];
      AdditionsAt(init, p);
      HasKindGrows(init, last, p, {Regular});
      var before, after := ChangesOf(init).additions, ChangesOf(layer).additions;
      assert last in layer;
      if last.Node? && last.path == p && Wanted(p, last.kind) {
        assert after[p] == last.content && HasKind(layer, p, {Regular});
      } else {
        assert p in after <==> p in before;
        assert p in after ==> after[p] == before[p];
      }
    }
  }

  lemma ChangesAt(layer: seq<Entry>, p: Path)
    requires Bounded(layer)
    ensures var c := ChangesOf(layer);
      && (p in c.removals <==> Whiteout(p) in layer || Opaque(p) in layer)
      && (p in c.directories <==> HasKind(layer, p, {Directory}))
      && (p in c.replacements <==> HasKind(layer, p, REPLACING))
      && (p in c.newLinks <==> HasKind(layer, p, LINKS))
      && (p in c.additions <==> WantedName(p) && HasKind(layer, p, {Regular}))
      && (p in c.additions ==> Node(p, Regular, c.additions[p]) in layer)
  {
    RemovalsAt(layer, p);
    DirectoriesAt(layer, p);
    ReplacementsAt(layer, p);
    LinksAt(layer, p);
    AdditionsAt(layer, p);
  }

  lemma UniqueNode(layer: seq<Entry>, a: Entry, b: Entry)
    requires WellFormed(layer) && a in layer && b in layer && a.Node? && b.Node? && a.path == b.path
    ensures a == b
  {
  }

  lemma LookupNode(layers: seq<seq<Entry>>, top: seq<Entry>, e: Entry)
    requires WellFormed(top) && e in top && e.Node?
    ensures Lookup(layers + [top], e.path) == Present(e.kind, e.content)
  {
  }

  lemma LookupBelow(layers: seq<seq<Entry>>, top: seq<Entry>, p: Path)
    requires !HasNode(top, p)
    ensures Lookup(layers + [top], p) == if Hides(top, p) then Absent else Lookup(layers, p)
  {
  }

  lemma {:induction false} RootIsNoLink(layers: seq<seq<Entry>>)
    requires AllWellFormed(layers)
    ensures !LinkAt(layers, [])
  {
    if layers != [] {
      var below, top := layers[..|layers| - 1], layers[|layers| - 1];
      assert layers == below + [top];
      RootIsNoLink(below);
      if HasNode(top, []) {
        var e :| e in top && e.Node? && e.path == [];
        LookupNode(below, top, e);
      } else {
        LookupBelow(below, top, []);
      }
    }
  }

  lemma OpaqueIsElsewhere(top: seq<Entry>, directory: Path, p: Path)
    requires WellFormed(top) && Opaque(directory) in top && !HasNode(top, p) && p != []
    ensures directory != p
  {
  }

  /** Where the layer has no entry of its own, the cleared paths are the hidden ones. */
  lemma ClearedIsHidden(top: seq<Entry>, p: Path)
    requires WellFormed(top) && Bounded(top) && !HasNode(top, p) && p != []
    ensures var c := ChangesOf(top); Cleared(c.removals + c.replacements, p) <==> Hides(top, p)
  {
    var c := ChangesOf(top);
    if Cleared(c.removals + c.replacements, p) {
      var t :| t in c.removals + c.replacements && t <= p;
      ClearingHides(top, p, t);
    }
    if Hides(top, p) {
      var e :| e in top && HiddenBy(e, p);
      HidingClears(top, p, e);
    }
  }

  lemma ClearingHides(top: seq<Entry>, p: Path, t: Path)
    requires WellFormed(top) && !HasNode(top, p) && p != [] && t <= p
    requires t in ChangesOf(top).removals + ChangesOf(top).replacements
    ensures Hides(top, p)
  {
    RemovalsAt(top, t);
    ReplacementsAt(top, t);
    if Whiteout(t) in top {
      assert HiddenBy(Whiteout(t), p);
    } else if Opaque(t) in top {
      OpaqueIsElsewhere(top, t, p);
      assert HiddenBy(Opaque(t), p);
    } else {
      var e :| e in top && e.Node? && e.path == t && e.kind in REPLACING;
      assert t != p;
      assert HiddenBy(e, p);
    }
  }

  lemma HidingClears(top: seq<Entry>, p: Path, e: Entry)
    requires e in top && HiddenBy(e, p)
    ensures Cleared(ChangesOf(top).removals + ChangesOf(top).replacements, p)
  {
    var t := if e.Opaque? then e.directory else e.path;
    RemovalsAt(top, t);
    ReplacementsAt(top, t);
    assert e.Node? ==> HasKind(top, t, REPLACING);
    assert t in ChangesOf(top).removals + ChangesOf(top).replacements && t <= p;
  }

  lemma NodeStep(layers: seq<seq<Entry>>, top: seq<Entry>, p: Path, retained0: map<Path, Bytes>, links0: set<Path>,
                 retained: map<Path, Bytes>, links: set<Path>)
    requires WellFormed(top) && Bounded(top) && HasNode(top, p)
    requires Applied(ChangesOf(top), retained0, links0, retained, links)
    ensures p in retained <==> WantedFile(layers + [top], p)
    ensures p in retained ==> Lookup(layers + [top], p) == Present(Regular, retained[p])
    ensures p in links <==> LinkAt(layers + [top], p)
  {
    var e :| e in top && e.Node? && e.path == p;
    var c := ChangesOf(top);
    ChangesAt(top, p);
    LookupNode(layers, top, e);
    forall f | f in top && f.Node? && f.path == p
      ensures f == e
    {
      UniqueNode(top, e, f);
    }
    if e.kind.Directory? {
      assert HasKind(top, p, {Directory});
    } else {
      assert HasKind(top, p, REPLACING);
      assert Cleared(c.removals + c.replacements, p) by { assert p in c.removals + c.replacements && p <= p; }
    }
    assert IsLink(e.kind) ==> HasKind(top, p, LINKS);
    assert e.kind.Regular? ==> HasKind(top, p, {Regular});
  }

  lemma BareStep(layers: seq<seq<Entry>>, top: seq<Entry>, p: Path, retained0: map<Path, Bytes>, links0: set<Path>,
                 retained: map<Path, Bytes>, links: set<Path>)
    requires WellFormed(top) && Bounded(top) && !HasNode(top, p)
    requires p in retained0 <==> WantedFile(layers, p)
    requires p in retained0 ==> Lookup(layers, p) == Present(Regular, retained0[p])
    requires p in links0 <==> LinkAt(layers, p)
    requires p == [] ==> !LinkAt(layers, p)
    requires Applied(ChangesOf(top), retained0, links0, retained, links)
    ensures p in retained <==> WantedFile(layers + [top], p)
    ensures p in retained ==> Lookup(layers + [top], p) == Present(Regular, retained[p])
    ensures p in links <==> LinkAt(layers + [top], p)
  {
    ChangesAt(top, p);
    LookupBelow(layers, top, p);
    if p != [] {
      ClearedIsHidden(top, p);
    }
  }

  lemma LayerStep(layers: seq<seq<Entry>>, top: seq<Entry>, retained0: map<Path, Bytes>, links0: set<Path>,
                  retained: map<Path, Bytes>, links: set<Path>)
    requires AllWellFormed(layers) && WellFormed(top) && Bounded(top) && Agrees(layers, retained0, links0)
    requires Applied(ChangesOf(top), retained0, links0, retained, links)
    ensures Agrees(layers + [top], retained, links)
  {
    RootIsNoLink(layers);
    forall p
      ensures p in retained <==> WantedFile(layers + [top], p)
      ensures p in retained ==> Lookup(layers + [top], p) == Present(Regular, retained[p])
      ensures p in links <==> LinkAt(layers + [top], p)
    {
      if HasNode(top, p) {
        NodeStep(layers, top, p, retained0, links0, retained, links);
      } else {
        BareStep(layers, top, p, retained0, links0, retained, links);
      }
    }
  }
}
