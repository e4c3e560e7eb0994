/**
 The key of the development kit: a hash over length-prefixed records of every input file.  The
 framing is shown to be undone by a decoder, so two sets of inputs feed the hash the same bytes
 only when they are the same.
 */
module DevkitKey {
  import opened Prelude
  import opened Sorting

  type Octet = x: nat | x < 256
  type Octets = seq<Octet>

  // ---------------------------------------------------------------- lengths

  const WIDTH: nat := 8

  function Power(k: nat): nat {
    if k == 0 then 1 else 256 * Power(k - 1)
  }

  /** `to_bytes(k, 'big')`. */
  function BigEndian(n: nat, k: nat): (octets: Octets)
    ensures |octets| == k
  {
    if k == 0 then [] else BigEndian(n / 256, k - 1) + [n % 256]
  }

  function Value(octets: Octets): nat {
    if octets == [] then 0 else Value(octets[..|octets| - 1]) * 256 + octets[|octets| - 1]
  }

  lemma {:induction false} ValueOfBigEndian(n: nat, k: nat)
    requires n < Power(k)
    ensures Value(BigEndian(n, k)) == n
  {
    if k > 0 {
      ValueOfBigEndian(n / 256, k - 1);
      assert BigEndian(n, k)[..k - 1] == BigEndian(n / 256, k - 1);
    }
  }

  lemma {:induction false} BigEndianOfValue(octets: Octets)
    ensures Value(octets) < Power(|octets|) && BigEndian(Value(octets), |octets|) == octets
  {
    if octets != [] {
      var init := octets[..|octets| - 1];
      BigEndianOfValue(init);
      assert octets == init + [octets[|octets| - 1]];
    }
  }

  // ---------------------------------------------------------------- framing

  datatype Record = Record(name: Octets, data: Octets)

  predicate Sized(r: Record) {
    |r.name| < Power(WIDTH) && |r.data| < Power(WIDTH)
  }

  function Field(octets: Octets): Octets {
    BigEndian(|octets|, WIDTH) + octets
  }

  /** What is fed to the hash after its domain prefix. */
  function Frames(records: seq<Record>): Octets {
    if records == [] then [] else Field(records[0].name) + Field(records[0].data) + Frames(records[1..])
  }

  /** One field off the front of a stream. */
  function TakeField(stream: Octets): (r: Option<(Octets, Octets)>)
    ensures r.Some? ==> |r.value.1| < |stream|
  {
    if |stream| < WIDTH then None
    else
      var n := Value(stream[..WIDTH]);
      if |stream| - WIDTH < n then None else Some((stream[WIDTH..WIDTH + n], stream[WIDTH + n..]))
  }

  /** The decoder of the framing. */
  function Parse(stream: Octets): Option<seq<Record>>
    decreases |stream|
  {
    if stream == [] then Some([])
    else
      var name := TakeField(stream);
      if name.None? then None
      else
        var data := TakeField(name.value.1);
        if data.None? then None
        else
          var rest := Parse(data.value.1);
          if rest.None? then None else Some([Record(name.value.0, data.value.0)] + rest.value)
  }

  lemma FieldComesOff(octets: Octets, rest: Octets)
    requires |octets| < Power(WIDTH)
    ensures TakeField(Field(octets) + rest) == Some((octets, rest))
  {
    var stream := Field(octets) + rest;
    ValueOfBigEndian(|octets|, WIDTH);
    assert stream[..WIDTH] == BigEndian(|octets|, WIDTH);
    assert stream[WIDTH..WIDTH + |octets|] == octets && stream[WIDTH + |octets|..] == rest;
  }

  lemma FieldGoesBack(stream: Octets)
    requires TakeField(stream).Some?
    ensures Field(TakeField(stream).value.0) + TakeField(stream).value.1 == stream
    ensures |TakeField(stream).value.0| < Power(WIDTH)
  {
    BigEndianOfValue(stream[..WIDTH]);
  }

  /** The decoder recovers the records, in order, from what was fed to the hash. */
  lemma {:induction false} ParseUndoesFrames(records: seq<Record>)
    requires forall i :: 0 <= i < |records| ==> Sized(records[i])
    ensures Parse(Frames(records)) == Some(records)
  {
    if records != [] {
      var r, rest := records[0], Frames(records[1..]);
      ParseUndoesFrames(records[1..]);
      ParseCons(r, rest);
      assert Frames(records) == Field(r.name) + (Field(r.data) + rest);
      assert records == [r] + records[1..];
    }
  }

  lemma ParseCons(r: Record, rest: Octets)
    requires Sized(r) && Parse(rest).Some?
    ensures Parse(Field(r.name) + (Field(r.data) + rest)) == Some([r] + Parse(rest).value)
  {
    FieldComesOff(r.name, Field(r.data) + rest);
    FieldComesOff(r.data, rest);
    assert Field(r.name) + (Field(r.data) + rest) != [];
  }

  /** Every stream the decoder accepts is the framing of what it returns: no two readings, none missed. */
  lemma {:induction false} FramesUndoParse(stream: Octets)
    requires Parse(stream).Some?
    ensures Frames(Parse(stream).value) == stream
    ensures forall i :: 0 <= i < |Parse(stream).value| ==> Sized(Parse(stream).value[i])
    decreases |stream|
  {
    if stream != [] {
      var name := TakeField(stream).value;
      var data := TakeField(name.1).value;
      FieldGoesBack(stream);
      FieldGoesBack(name.1);
      FramesUndoParse(data.1);
      FramesCons(Record(name.0, data.0), Parse(data.1).value);
      assert Field(name.0) + (Field(data.0) + data.1) == stream;
    }
  }

  lemma FramesCons(r: Record, rest: seq<Record>)
    ensures Frames([r] + rest) == Field(r.name) + (Field(r.data) + Frames(rest))
  {
  }

  /** Different records, or the same in another order or split, never feed the hash the same bytes. */
  lemma FramesInjective(a: seq<Record>, b: seq<Record>)
    requires (forall i :: 0 <= i < |a| ==> Sized(a[i])) && (forall i :: 0 <= i < |b| ==> Sized(b[i]))
    requires Frames(a) == Frames(b)
    ensures a == b
  {
    ParseUndoesFrames(a);
    ParseUndoesFrames(b);
  }

  // ---------------------------------------------------------------- the inputs and their key

  datatype Node = Regular(data: Octets) | Directory | Irregular

  /** A checkout: the fixed input paths, and what lies under the image tree, in no particular order. */
  datatype Tree = Tree(fixed: seq<string>, symlinked: bool, listing: seq<string>, nodes: map<string, Node>)

  /** Which paths are cached bytecode, how a path is encoded, the domain prefix and the hash. */
  datatype Facts = Facts(cached: string -> bool, encode: string -> Octets, domain: Octets, digest: Octets -> string)

  predicate Acceptable(f: Facts, t: Tree) {
    && !t.symlinked
    && forall i :: 0 <= i < |t.listing| && !f.cached(t.listing[i]) ==>
         t.listing[i] in t.nodes && !t.nodes[t.listing[i]].Irregular?
  }

  /** The files under the image tree that count. */
  function Extra(f: Facts, t: Tree): set<string> {
    set p | p in t.listing && !f.cached(p) && p in t.nodes && t.nodes[p].Regular?
  }

  ghost function Names(f: Facts, t: Tree): seq<string> {
    t.fixed + SortedOf(Extra(f, t))
  }

  /** `inputs`. */
  method Inputs(f: Facts, t: Tree) returns (r: Result<seq<string>, ()>)
    ensures r.Ok? <==> Acceptable(f, t)
    ensures r.Ok? ==> r.value == Names(f, t)
  {
    if t.symlinked {
      return Err(());
    }
    var extra: set<string> := {};
    for i := 0 to |t.listing|
      invariant Acceptable(f, t.(listing := t.listing[..i]))
      invariant extra == Extra(f, t.(listing := t.listing[..i]))
    {
      var path := t.listing[i];
      assert t.listing[..i + 1] == t.listing[..i] + [path];
      if !f.cached(path) {
        if path !in t.nodes || t.nodes[path].Irregular? {
          return Err(());
        }
        if t.nodes[path].Regular? {
          extra := extra + {path};
        }
      }
    }
    assert t.listing[..|t.listing|] == t.listing;
    var sorted := SortedList(extra);
    EnumerationUnique(sorted, SortedOf(extra), extra);
    r := Ok(t.fixed + sorted);
  }

  predicate Readable(f: Facts, t: Tree, name: string) {
    name in t.nodes && t.nodes[name].Regular? && Sized(Record(f.encode(name), t.nodes[name].data))
  }

  function RecordOf(f: Facts, t: Tree, name: string): Record
    requires Readable(f, t, name)
  {
    Record(f.encode(name), t.nodes[name].data)
  }

  function RecordsOf(f: Facts, t: Tree, names: seq<string>): (records: seq<Record>)
    requires forall i :: 0 <= i < |names| ==> Readable(f, t, names[i])
    ensures |records| == |names|
    ensures forall i :: 0 <= i < |names| ==> records[i] == RecordOf(f, t, names[i])
  {
    seq(|names|, i requires 0 <= i < |names| => RecordOf(f, t, names[i]))
  }

  ghost predicate Keyed(f: Facts, t: Tree) {
    Acceptable(f, t) && forall i :: 0 <= i < |Names(f, t)| ==> Readable(f, t, Names(f, t)[i])
  }

  /** What the hash is fed for a checkout. */
  ghost function Stream(f: Facts, t: Tree): Octets
    requires Keyed(f, t)
  {
    f.domain + Frames(RecordsOf(f, t, Names(f, t)))
  }

  lemma {:induction false} FramesSnoc(records: seq<Record>, r: Record)
    ensures Frames(records + [r]) == Frames(records) + (Field(r.name) + Field(r.data))
  {
    if records == [] {
      assert records + [r] == [r];
    } else {
      FramesSnoc(records[1..], r);
      assert (records + [r])[1..] == records[1..] + [r] && (records + [r])[0] == records[0];
    }
  }

  lemma NextFrame(f: Facts, t: Tree, names: seq<string>, i: nat)
    requires i < |names| && forall k :: 0 <= k <= i ==> Readable(f, t, names[k])
    ensures Frames(RecordsOf(f, t, names[..i + 1]))
         == Frames(RecordsOf(f, t, names[..i])) + (Field(f.encode(names[i])) + Field(t.nodes[names[i]].data))
  {
    FramesSnoc(RecordsOf(f, t, names[..i]), RecordOf(f, t, names[i]));
    assert RecordsOf(f, t, names[..i + 1]) == RecordsOf(f, t, names[..i]) + [RecordOf(f, t, names[i])];
  }

  /** `key`: refused, or the hash of the framed inputs, fed to it one record after the other. */
  method Key(f: Facts, t: Tree) returns (r: Result<string, ()>)
    ensures r.Ok? <==> Keyed(f, t)
    ensures r.Ok? ==> r.value == f.digest(Stream(f, t))
  {
    var inputs := Inputs(f, t);
    if inputs.Err? {
      return Err(());
    }
    var fed := Feed(f, t, inputs.value);
    r := if fed.None? then Err(()) else Ok(f.digest(f.domain + fed.value));
  }

  /** The loop of `key`, up to the domain prefix: the records framed one after the other. */
  method Feed(f: Facts, t: Tree, names: seq<string>) returns (fed: Option<Octets>)
    ensures fed.Some? <==> forall k :: 0 <= k < |names| ==> Readable(f, t, names[k])
    ensures fed.Some? ==> fed.value == Frames(RecordsOf(f, t, names))
  {
    var frames: Octets := [];
    for i := 0 to |names|
      invariant forall k :: 0 <= k < i ==> Readable(f, t, names[k])
      invariant frames == Frames(RecordsOf(f, t, names[..i]))
    {
      if !Readable(f, t, names[i]) {
        return None;
      }
      NextFrame(f, t, names, i);
      frames := frames + (Field(f.encode(names[i])) + Field(t.nodes[names[i]].data));
    }
    assert names[..|names|] == names;
    fed := Some(frames);
  }

  /** The same input paths in the same order, with the same bytes. */
  ghost predicate SameInputs(f: Facts, t: Tree, u: Tree)
    requires Keyed(f, t) && Keyed(f, u)
  {
    Names(f, t) == Names(f, u) && forall i :: 0 <= i < |Names(f, t)| ==> t.nodes[Names(f, t)[i]] == u.nodes[Names(f, u)[i]]
  }

  lemma RecordsAgreeOnInputs(f: Facts, t: Tree, u: Tree)
    requires Keyed(f, t) && Keyed(f, u)
    requires forall p, q :: f.encode(p) == f.encode(q) ==> p == q
    ensures RecordsOf(f, t, Names(f, t)) == RecordsOf(f, u, Names(f, u)) <==> SameInputs(f, t, u)
  {
    var a, b := RecordsOf(f, t, Names(f, t)), RecordsOf(f, u, Names(f, u));
    if a == b {
      forall i | 0 <= i < |a|
        ensures Names(f, t)[i] == Names(f, u)[i]
      {
        assert a[i] == b[i];
      }
      assert Names(f, t) == Names(f, u);
    }
    if SameInputs(f, t, u) {
      assert a == b;
    }
  }

  /**
   The hash is fed the same bytes just when the inputs are the same: the order in which the tree
   is listed, and whatever is not an input, make no difference, and everything else does.
   */
  lemma StreamsAgreeOnInputs(f: Facts, t: Tree, u: Tree)
    requires Keyed(f, t) && Keyed(f, u)
    requires forall p, q :: f.encode(p) == f.encode(q) ==> p == q
    ensures Stream(f, t) == Stream(f, u) <==> SameInputs(f, t, u)
  {
    var a, b := RecordsOf(f, t, Names(f, t)), RecordsOf(f, u, Names(f, u));
    if Stream(f, t) == Stream(f, u) {
      assert Stream(f, t)[|f.domain|..] == Frames(a) && Stream(f, u)[|f.domain|..] == Frames(b);
      FramesInjective(a, b);
    }
    RecordsAgreeOnInputs(f, t, u);
  }

  /** Under a hash without collisions on the two, equal keys mean equal inputs. */
  lemma EqualKeysMeanEqualInputs(f: Facts, t: Tree, u: Tree)
    requires Keyed(f, t) && Keyed(f, u)
    requires forall p, q :: f.encode(p) == f.encode(q) ==> p == q
    requires f.digest(Stream(f, t)) == f.digest(Stream(f, u)) ==> Stream(f, t) == Stream(f, u)
    ensures f.digest(Stream(f, t)) == f.digest(Stream(f, u)) <==> SameInputs(f, t, u)
  {
    StreamsAgreeOnInputs(f, t, u);
  }
}
