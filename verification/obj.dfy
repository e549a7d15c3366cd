/** Vertex layout of Wavefront OBJ materials (mgllib/model/obj.py): the
    format string such as `V3_N3_T2` is cut at underscores into parts, each
    naming an attribute and its float count, and the flat vertex list of a
    material is cut into one dictionary per vertex, attribute name to its
    floats. */
module Obj {
  import opened Wrappers
  import opened Dicts

  /** `str.split(sep)`: the pieces between separators, in order; a
      string without a separator is one piece. */
  function Split(s: string, sep: char): (parts: seq<string>)
    ensures |parts| >= 1
    ensures forall p :: p in parts ==> sep !in p
  {
    if s == [] then [[]]
    else
      var rest := Split(s[1..], sep);
      if s[0] == sep then [[]] + rest else [[s[0]] + rest[0]] + rest[1..]
  }

  /** `sep.join(parts)`. */
  function Join(parts: seq<string>, sep: char): string
    requires |parts| >= 1
  {
    if |parts| == 1 then parts[0] else parts[0] + [sep] + Join(parts[1..], sep)
  }

  /** Splitting loses nothing: joining the pieces gives the string back. */
  lemma {:induction false} JoinSplit(s: string, sep: char)
    ensures Join(Split(s, sep), sep) == s
  {
    if s != [] {
      JoinSplit(s[1..], sep);
      var rest := Split(s[1..], sep);
      if s[0] == sep {
        assert Split(s, sep)[1..] == rest;
      } else {
        var parts := Split(s, sep);
        if |rest| == 1 {
          assert parts == [[s[0]] + rest[0]];
        } else {
          assert parts[1..] == rest[1..];
          assert Join(rest, sep) == rest[0] + [sep] + Join(rest[1..], sep);
        }
      }
    }
  }

  /** `FORMAT_NAMES`: the attribute each prefix letter stands for. */
  const FORMAT_NAMES: map<string, string> := map["T" := "uv", "N" := "normal", "V" := "vert"]

  /** The attribute names a part can carry: the values of `FORMAT_NAMES`
      and `unknown`. */
  datatype Attr = Uv | Normal | Vert | Unknown {
    /** The name the loader uses as a dictionary key. */
    function Name(): string {
      match this
      case Uv => "uv"
      case Normal => "normal"
      case Vert => "vert"
      case Unknown => "unknown"
    }
  }

  /** Different attributes have different names, so keying by `Attr`
      keys by name. */
  lemma NameInjective(a: Attr, b: Attr)
    ensures a.Name() == b.Name() ==> a == b
  {
    if a != b {
      assert a.Name() != b.Name() by {
        assert a.Name()[0] != b.Name()[0] || |a.Name()| != |b.Name()|;
      }
    }
  }

  /** The exceptions parsing a part can raise: `part[-2]` on a part of
      fewer than two characters, `int(...)` on a character that is not a
      digit. */
  datatype FormatError = IndexError(part: string) | ValueError(part: string)

  /** What one part contributes: its attribute name, its float count and
      its data type string. */
  datatype Part = Part(id: Attr, size: nat, dtype: string)

  predicate IsDigit(c: char) {
    '0' <= c <= '9'
  }

  /** `str.lower()` on ASCII letters. */
  function Lower(s: string): string {
    if s == [] then []
    else [if 'A' <= s[0] <= 'Z' then s[0] - 'A' + 'a' else s[0]] + Lower(s[1..])
  }

  /** `Lower` maps each upper-case ASCII letter to its lower-case form and
      keeps every other character. */
  lemma {:induction false} LowerAscii(s: string)
    ensures |Lower(s)| == |s|
    ensures forall i :: 0 <= i < |s| ==> (if 'A' <= s[i] <= 'Z' then Lower(s)[i] == s[i] - 'A' + 'a' else Lower(s)[i] == s[i])
  {
    if s != [] {
      LowerAscii(s[1..]);
    }
  }

  /** The attribute name of a part: the name of its prefix, the part
      without its last two characters, or `unknown`. */
  function PartId(part: string): Attr {
    var prefix := if |part| >= 2 then part[..|part| - 2] else [];
    if |prefix| != 1 then Unknown
    else if prefix[0] == 'V' then Vert
    else if prefix[0] == 'N' then Normal
    else if prefix[0] == 'T' then Uv
    else Unknown
  }

  /** `PartId` is the lookup of the prefix in `FORMAT_NAMES`, with
      `unknown` for a prefix the table lacks. */
  lemma PartIdLookup(part: string)
    ensures var prefix := if |part| >= 2 then part[..|part| - 2] else [];
      PartId(part).Name() == if prefix in FORMAT_NAMES then FORMAT_NAMES[prefix] else "unknown"
  {
    var prefix := if |part| >= 2 then part[..|part| - 2] else [];
    if |prefix| == 1 {
      assert prefix == [prefix[0]];
    } else {
      assert prefix != "V" && prefix != "N" && prefix != "T";
    }
  }

  /** One turn of the parsing loop: the name from the prefix, the size
      from the second-to-last character, the data type from the last two
      characters lower-cased. */
  function ParsePart(part: string): (r: Result<Part, FormatError>)
    ensures |part| < 2 <==> r == Err(IndexError(part))
    ensures |part| >= 2 && !IsDigit(part[|part| - 2]) <==> r == Err(ValueError(part))
    ensures r.Ok? ==> |part| >= 2 && 0 <= r.value.size <= 9
  {
    if |part| < 2 then Err(IndexError(part))
    else if !IsDigit(part[|part| - 2]) then Err(ValueError(part))
    else Ok(Part(PartId(part), (part[|part| - 2] - '0') as int, Lower(part[|part| - 2..])))
  }

  /** One entry of `group_map`: an attribute and its float range. */
  datatype Group = Group(id: Attr, start: int, end: int)

  /** A parsed `VertexFormat`. */
  datatype VertexFormat = VertexFormat(groupMap: seq<Group>, datatypes: Dict<Attr, string>, length: int)

  /** The ranges of `group_map` tile `[0, length)` in order: the first
      starts at 0, each starts where the previous one ends, the last ends
      at `length`. */
  ghost predicate WellFormed(f: VertexFormat) {
    && (forall k :: 0 <= k < |f.groupMap| ==> 0 <= f.groupMap[k].start <= f.groupMap[k].end <= f.length)
    && (|f.groupMap| == 0 ==> f.length == 0)
    && (|f.groupMap| > 0 ==> f.groupMap[0].start == 0 && f.groupMap[|f.groupMap| - 1].end == f.length)
    && (forall k :: 0 < k < |f.groupMap| ==> f.groupMap[k].start == f.groupMap[k - 1].end)
  }

  /** The parts of the first n pieces, or the error of the first piece
      that does not parse. */
  function ParseParts(pieces: seq<string>, n: nat): Result<seq<Part>, FormatError>
    requires n <= |pieces|
  {
    if n == 0 then Ok([])
    else match ParseParts(pieces, n - 1)
      case Err(e) => Err(e)
      case Ok(ps) =>
        match ParsePart(pieces[n - 1])
        case Err(e) => Err(e)
        case Ok(p) => Ok(ps + [p])
  }

  /** The sum of the sizes of the parts. */
  function SizeSum(ps: seq<Part>): nat {
    if ps == [] then 0 else SizeSum(ps[..|ps| - 1]) + ps[|ps| - 1].size
  }

  /** The ranges the parsing loop appends: each part's range starts at the
      sum of the sizes before it. */
  function Ranges(ps: seq<Part>): seq<Group> {
    if ps == [] then []
    else
      var init := ps[..|ps| - 1];
      Ranges(init) + [Group(ps[|ps| - 1].id, SizeSum(init), SizeSum(init) + ps[|ps| - 1].size)]
  }

  /** The data types the parsing loop records, each under its part's name. */
  function Datatypes(ps: seq<Part>): Dict<Attr, string> {
    if ps == [] then Empty()
    else Datatypes(ps[..|ps| - 1]).Put(ps[|ps| - 1].id, ps[|ps| - 1].dtype)
  }

  /** The layout the parsing loop builds from the parts in order. */
  function Build(ps: seq<Part>): VertexFormat {
    VertexFormat(Ranges(ps), Datatypes(ps), SizeSum(ps))
  }

  /** `VertexFormat(string)`: the layout of all parts of the string, or
      the first part's error. */
  function FormatOf(s: string): Result<VertexFormat, FormatError> {
    var pieces := Split(s, '_');
    match ParseParts(pieces, |pieces|)
    case Err(e) => Err(e)
    case Ok(ps) => Ok(Build(ps))
  }

  /** `VertexFormat.__init__`: walks the parts, appending each part's range
      at the running offset and recording its data type by name. */
  method ParseVertexFormat(s: string) returns (r: Result<VertexFormat, FormatError>)
    ensures r == FormatOf(s)
  {
    var pieces := Split(s, '_');
    var groupMap: seq<Group> := [];
    var datatypes: Dict<Attr, string> := Empty();
    var offset := 0;
    ghost var ps: seq<Part> := [];
    for i := 0 to |pieces|
      invariant ParseParts(pieces, i) == Ok(ps)
      invariant Build(ps) == VertexFormat(groupMap, datatypes, offset)
    {
      var parsed := ParsePart(pieces[i]);
      ParsePartsNext(pieces, i, ps, parsed);
      if parsed.Err? {
        ParseErrorSticks(pieces, i + 1, |pieces|);
        return Err(parsed.error);
      }
      var p := parsed.value;
      BuildNext(ps, p);
      ps := ps + [p];
      groupMap := groupMap + [Group(p.id, offset, offset + p.size)];
      datatypes := datatypes.Put(p.id, p.dtype);
      offset := offset + p.size;
    }
    return Ok(VertexFormat(groupMap, datatypes, offset));
  }

  /** Parsing one more piece is one more turn of the loop. */
  lemma ParsePartsNext(pieces: seq<string>, i: nat, ps: seq<Part>, parsed: Result<Part, FormatError>)
    requires i < |pieces| && ParseParts(pieces, i) == Ok(ps) && parsed == ParsePart(pieces[i])
    ensures parsed.Err? ==> ParseParts(pieces, i + 1) == Err(parsed.error)
    ensures parsed.Ok? ==> ParseParts(pieces, i + 1) == Ok(ps + [parsed.value])
  {
  }

  /** Building with one more part appends its range and records its data
      type. */
  lemma BuildNext(ps: seq<Part>, p: Part)
    ensures var f := Build(ps);
      Build(ps + [p]) == VertexFormat(f.groupMap + [Group(p.id, f.length, f.length + p.size)], f.datatypes.Put(p.id, p.dtype), f.length + p.size)
  {
    assert (ps + [p])[..|ps|] == ps;
  }

  /** Once a piece fails, parsing keeps that piece's error. */
  lemma {:induction false} ParseErrorSticks(pieces: seq<string>, i: nat, n: nat)
    requires i <= n <= |pieces| && ParseParts(pieces, i).Err?
    ensures ParseParts(pieces, n) == ParseParts(pieces, i)
  {
    if n > i {
      ParseErrorSticks(pieces, i, n - 1);
    }
  }

  /** Parsing succeeds exactly when every piece parses. */
  lemma {:induction false} ParsePartsOk(pieces: seq<string>, n: nat)
    requires n <= |pieces|
    ensures ParseParts(pieces, n).Ok? <==> forall k :: 0 <= k < n ==> ParsePart(pieces[k]).Ok?
  {
    if n > 0 {
      ParsePartsOk(pieces, n - 1);
      if ParseParts(pieces, n - 1).Ok? {
        ParsePartsNext(pieces, n - 1, ParseParts(pieces, n - 1).value, ParsePart(pieces[n - 1]));
      }
    }
  }

  /** A successful parse has one part per piece, part k being what piece
      k parses to. */
  lemma {:induction false} ParsePartsValues(pieces: seq<string>, n: nat)
    requires n <= |pieces| && ParseParts(pieces, n).Ok?
    ensures |ParseParts(pieces, n).value| == n
    ensures forall k :: 0 <= k < n ==> ParsePart(pieces[k]).Ok? && ParseParts(pieces, n).value[k] == ParsePart(pieces[k]).value
  {
    if n > 0 {
      assert ParseParts(pieces, n - 1).Ok?;
      ParsePartsValues(pieces, n - 1);
      var ps := ParseParts(pieces, n - 1).value;
      ParsePartsNext(pieces, n - 1, ps, ParsePart(pieces[n - 1]));
      forall k | 0 <= k < n
        ensures ParsePart(pieces[k]).Ok? && ParseParts(pieces, n).value[k] == ParsePart(pieces[k]).value
      {
        if k < n - 1 {
          assert ParseParts(pieces, n).value[k] == ps[k];
        }
      }
    }
  }

  /** Piece k is the first piece that does not parse. */
  predicate FirstFailure(pieces: seq<string>, k: nat) {
    && k < |pieces| && ParsePart(pieces[k]).Err?
    && forall j :: 0 <= j < k ==> ParsePart(pieces[j]).Ok?
  }

  /** Parsing stops at the first piece that fails, with that piece's
      error. */
  lemma {:induction false} ParseFirstError(pieces: seq<string>, n: nat)
    requires n <= |pieces| && ParseParts(pieces, n).Err?
    ensures exists k: nat :: FirstFailure(pieces, k) && k < n && ParseParts(pieces, n).error == ParsePart(pieces[k]).error
  {
    if ParseParts(pieces, n - 1).Err? {
      ParseFirstError(pieces, n - 1);
    } else {
      ParsePartsOk(pieces, n - 1);
      assert FirstFailure(pieces, n - 1);
    }
  }

  /** The layout has one range per part, the ranges tile `[0, length)`,
      and `length` is the sum of the part sizes. */
  lemma {:induction false} BuildWellFormed(ps: seq<Part>)
    ensures WellFormed(Build(ps))
    ensures |Build(ps).groupMap| == |ps|
    ensures Build(ps).length == SizeSum(ps)
  {
    if ps != [] {
      var init := ps[..|ps| - 1];
      BuildWellFormed(init);
      var rs := Ranges(init);
      var gs := Ranges(ps);
      assert gs == rs + [Group(ps[|ps| - 1].id, SizeSum(init), SizeSum(ps))];
      forall k | 0 <= k < |gs|
        ensures 0 <= gs[k].start <= gs[k].end <= SizeSum(ps)
      {
        if k < |rs| {
          assert gs[k] == rs[k];
        }
      }
      forall k | 0 < k < |gs|
        ensures gs[k].start == gs[k - 1].end
      {
        assert gs[k - 1] == rs[k - 1];
        if k < |rs| {
          assert gs[k] == rs[k];
        }
      }
    }
  }

  /** Group k has part k's name and runs from the sum of the sizes before
      it to that sum plus its own size. */
  lemma {:induction false} BuildGroupAt(ps: seq<Part>, k: nat)
    requires k < |ps|
    ensures |Build(ps).groupMap| == |ps|
    ensures Build(ps).groupMap[k] == Group(ps[k].id, SizeSum(ps[..k]), SizeSum(ps[..k + 1]))
  {
    var init := ps[..|ps| - 1];
    BuildWellFormed(init);
    if k < |ps| - 1 {
      BuildGroupAt(init, k);
      assert init[..k] == ps[..k] && init[..k + 1] == ps[..k + 1];
    } else {
      assert ps[..k] == init && ps[..k + 1][..k] == init;
    }
  }

  /** Every part's name has an entry in `datatypes`, whose key list stays
      duplicate-free. */
  lemma {:induction false} BuildDatatypesCover(ps: seq<Part>)
    ensures Build(ps).datatypes.Valid()
    ensures forall k :: 0 <= k < |ps| ==> ps[k].id in Build(ps).datatypes.items
  {
    if ps != [] {
      var init := ps[..|ps| - 1];
      BuildDatatypesCover(init);
      forall k | 0 <= k < |ps|
        ensures ps[k].id in Build(ps).datatypes.items
      {
        if k < |init| {
          assert ps[k].id == init[k].id;
        }
      }
    }
  }

  /** `datatypes` has entries only for the names of the parts. */
  lemma {:induction false} BuildDatatypesWithin(ps: seq<Part>)
    ensures forall id :: id in Build(ps).datatypes.items ==> exists k :: 0 <= k < |ps| && ps[k].id == id
  {
    if ps != [] {
      var init := ps[..|ps| - 1];
      BuildDatatypesWithin(init);
      forall id | id in Build(ps).datatypes.items
        ensures exists k :: 0 <= k < |ps| && ps[k].id == id
      {
        if id == ps[|ps| - 1].id {
          assert 0 <= |ps| - 1 < |ps|;
        } else {
          assert id in Build(init).datatypes.items;
          var k :| 0 <= k < |init| && init[k].id == id;
          assert ps[k].id == id;
        }
      }
    }
  }

  /** A name's entry in `datatypes` is the data type of the last part with
      that name. */
  lemma {:induction false} BuildDatatypeLast(ps: seq<Part>, k: nat)
    requires k < |ps| && forall j :: k < j < |ps| ==> ps[j].id != ps[k].id
    ensures ps[k].id in Build(ps).datatypes.items
    ensures Build(ps).datatypes.items[ps[k].id] == ps[k].dtype
  {
    var init := ps[..|ps| - 1];
    if k < |init| {
      BuildDatatypeLast(init, k);
      assert init[k] == ps[k];
      assert ps[|ps| - 1].id != ps[k].id;
    }
  }

  /** A parsed format string always yields a well-formed layout. */
  lemma FormatOfWellFormed(s: string)
    ensures FormatOf(s).Ok? ==> WellFormed(FormatOf(s).value)
  {
    var pieces := Split(s, '_');
    if ParseParts(pieces, |pieces|).Ok? {
      BuildWellFormed(ParseParts(pieces, |pieces|).value);
    }
  }

  /** One vertex: attribute name to its floats. */
  type Point = Dict<Attr, seq<real>>

  /** The dictionary comprehension for vertex i over the first n groups:
      each group's slice of the vertex's floats, a later group with the
      same name overwriting the earlier one's value. */
  function GroupsOf(groups: seq<Group>, n: nat, vertices: seq<real>, base: nat): Point
    requires n <= |groups|
    requires forall k :: 0 <= k < n ==> 0 <= groups[k].start <= groups[k].end && base + groups[k].end <= |vertices|
  {
    if n == 0 then Empty()
    else GroupsOf(groups, n - 1, vertices, base).Put(groups[n - 1].id,
      vertices[base + groups[n - 1].start..base + groups[n - 1].end])
  }

  /** The key list of a vertex has no duplicates. */
  lemma {:induction false} GroupsOfValid(groups: seq<Group>, n: nat, vertices: seq<real>, base: nat)
    requires n <= |groups|
    requires forall k :: 0 <= k < n ==> 0 <= groups[k].start <= groups[k].end && base + groups[k].end <= |vertices|
    ensures GroupsOf(groups, n, vertices, base).Valid()
  {
    if n > 0 {
      GroupsOfValid(groups, n - 1, vertices, base);
    }
  }

  /** Vertex i of a material: the groups cut from floats `i * length`
      on. */
  function PointAt(f: VertexFormat, vertices: seq<real>, i: nat): Point
    requires WellFormed(f) && f.length > 0 && i < |vertices| / f.length
  {
    SliceFits(|vertices|, f.length, i);
    GroupsOf(f.groupMap, |f.groupMap|, vertices, i * f.length)
  }

  /** A vertex index below `len // length` leaves room for the whole
      vertex. */
  lemma SliceFits(total: nat, length: nat, i: nat)
    requires length > 0 && i < total / length
    ensures i * length + length <= total
  {
    assert (i + 1) * length <= (total / length) * length;
  }

  /** The attributes of a vertex are the names of its groups. */
  lemma {:induction false} GroupsOfKeys(groups: seq<Group>, n: nat, vertices: seq<real>, base: nat)
    requires n <= |groups|
    requires forall k :: 0 <= k < n ==> 0 <= groups[k].start <= groups[k].end && base + groups[k].end <= |vertices|
    ensures forall id :: id in GroupsOf(groups, n, vertices, base).items <==> exists k :: 0 <= k < n && groups[k].id == id
  {
    if n > 0 {
      GroupsOfKeys(groups, n - 1, vertices, base);
    }
  }

  /** Each attribute of a vertex holds the slice of the last group with
      that name. */
  lemma {:induction false} GroupsOfValues(groups: seq<Group>, n: nat, vertices: seq<real>, base: nat, k: nat)
    requires n <= |groups|
    requires forall k :: 0 <= k < n ==> 0 <= groups[k].start <= groups[k].end && base + groups[k].end <= |vertices|
    requires k < n && forall j :: k < j < n ==> groups[j].id != groups[k].id
    ensures groups[k].id in GroupsOf(groups, n, vertices, base).items
    ensures GroupsOf(groups, n, vertices, base).items[groups[k].id] == vertices[base + groups[k].start..base + groups[k].end]
  {
    if k < n - 1 {
      GroupsOfValues(groups, n - 1, vertices, base, k);
    }
  }

  /** Group k of vertex i is floats `i * length + start` up to
      `i * length + end` of the material, when no later group has the same
      name. */
  lemma PointAtGroup(f: VertexFormat, vertices: seq<real>, i: nat, k: nat)
    requires WellFormed(f) && f.length > 0 && i < |vertices| / f.length
    requires k < |f.groupMap| && forall j :: k < j < |f.groupMap| ==> f.groupMap[j].id != f.groupMap[k].id
    ensures f.groupMap[k].id in PointAt(f, vertices, i).items
    ensures i * f.length + f.groupMap[k].end <= |vertices|
    ensures PointAt(f, vertices, i).items[f.groupMap[k].id]
      == vertices[i * f.length + f.groupMap[k].start..i * f.length + f.groupMap[k].end]
  {
    SliceFits(|vertices|, f.length, i);
    GroupsOfValues(f.groupMap, |f.groupMap|, vertices, i * f.length, k);
  }

  /** The first n vertices of a material. */
  ghost function PointsUpTo(f: VertexFormat, vertices: seq<real>, n: nat): seq<Point>
    requires WellFormed(f) && f.length > 0 && n <= |vertices| / f.length
  {
    if n == 0 then [] else PointsUpTo(f, vertices, n - 1) + [PointAt(f, vertices, n - 1)]
  }

  /** Every vertex of a material, `len(vertices) // length` of them. */
  ghost function MaterialPoints(f: VertexFormat, vertices: seq<real>): seq<Point>
    requires WellFormed(f) && f.length > 0
  {
    PointsUpTo(f, vertices, |vertices| / f.length)
  }

  /** The first n vertices are n in number, vertex i being cut from
      floats `i * length` on. */
  lemma {:induction false} PointsUpToAt(f: VertexFormat, vertices: seq<real>, n: nat)
    requires WellFormed(f) && f.length > 0 && n <= |vertices| / f.length
    ensures |PointsUpTo(f, vertices, n)| == n
    ensures forall i :: 0 <= i < n ==> PointsUpTo(f, vertices, n)[i] == PointAt(f, vertices, i)
  {
    if n > 0 {
      PointsUpToAt(f, vertices, n - 1);
    }
  }

  /** The exceptions `load` can raise while cutting vertices: a bad format
      string, or a format of total size 0 (`len(vertices) // 0`). */
  datatype LoadError = BadFormat(error: FormatError) | ZeroDivisionError

  /** The slicing loop of `load` for one material: `len(vertices) //
      length` vertices, vertex i cut from floats `i * length` on. */
  method SlicePoints(f: VertexFormat, vertices: seq<real>) returns (r: Result<seq<Point>, LoadError>)
    requires WellFormed(f)
    ensures r.Err? <==> f.length == 0
    ensures r.Err? ==> r.error == ZeroDivisionError
    ensures r.Ok? ==> r.value == MaterialPoints(f, vertices)
    ensures r.Ok? ==> |r.value| == |vertices| / f.length
  {
    if f.length == 0 {
      return Err(ZeroDivisionError);
    }
    var points: seq<Point> := [];
    var count := |vertices| / f.length;
    for i := 0 to count
      invariant points == PointsUpTo(f, vertices, i)
    {
      points := points + [PointAt(f, vertices, i)];
    }
    PointsUpToAt(f, vertices, count);
    return Ok(points);
  }

  /** A material as the loader sees it: its name, its format string, its
      flat vertex list. */
  datatype Material = Material(name: string, vertexFormat: string, vertices: seq<real>)

  /** What `load` stores for a material with a format string: its
      vertices, or the error that stops the load. */
  ghost function LoadParsed(fmt: Result<VertexFormat, FormatError>, vertices: seq<real>): Result<Option<seq<Point>>, LoadError>
    requires fmt.Ok? ==> WellFormed(fmt.value)
  {
    match fmt
    case Err(e) => Err(BadFormat(e))
    case Ok(f) => if f.length == 0 then Err(ZeroDivisionError) else Ok(Some(MaterialPoints(f, vertices)))
  }

  /** What `load` stores for one material: nothing for an empty format
      string, otherwise what its parsed format gives. */
  ghost function LoadOne(m: Material): (r: Result<Option<seq<Point>>, LoadError>)
    ensures m.vertexFormat == [] <==> r == Ok(None)
  {
    if m.vertexFormat == [] then Ok(None)
    else
      FormatOfWellFormed(m.vertexFormat);
      LoadParsed(FormatOf(m.vertexFormat), m.vertices)
  }

  /** What the loop does with one material's outcome. */
  type Outcome = Result<Option<seq<Point>>, LoadError>

  /** `matwise_verts` after the outcomes of the first n materials: an
      error ends the load, no vertices leave the store as it is, vertices
      are stored under the material's name. */
  function Collect(materials: seq<Material>, outs: seq<Outcome>, n: nat): Result<Dict<string, seq<Point>>, LoadError>
    requires n <= |materials| && n <= |outs|
  {
    if n == 0 then Ok(Empty())
    else match Collect(materials, outs, n - 1)
      case Err(e) => Err(e)
      case Ok(d) =>
        match outs[n - 1]
        case Err(e) => Err(e)
        case Ok(None) => Ok(d)
        case Ok(Some(ps)) => Ok(d.Put(materials[n - 1].name, ps))
  }

  /** The outcomes of the first n materials. */
  ghost function OutcomesUpTo(materials: seq<Material>, n: nat): (outs: seq<Outcome>)
    requires n <= |materials|
    ensures |outs| == n
  {
    if n == 0 then [] else OutcomesUpTo(materials, n - 1) + [LoadOne(materials[n - 1])]
  }

  /** The outcome of every material. */
  ghost function Outcomes(materials: seq<Material>): (outs: seq<Outcome>)
    ensures |outs| == |materials|
  {
    OutcomesUpTo(materials, |materials|)
  }

  /** Outcome k is what material k loads to. */
  lemma {:induction false} OutcomeAt(materials: seq<Material>, n: nat, k: nat)
    requires k < n <= |materials|
    ensures OutcomesUpTo(materials, n)[k] == LoadOne(materials[k])
  {
    if k < n - 1 {
      OutcomeAt(materials, n - 1, k);
    }
  }

  /** `matwise_verts` once every material is loaded, or the first error. */
  ghost function Loaded(materials: seq<Material>): Result<Dict<string, seq<Point>>, LoadError> {
    Collect(materials, Outcomes(materials), |materials|)
  }

  /** One more outcome is one more turn of the loop. */
  lemma CollectNext(materials: seq<Material>, outs: seq<Outcome>, n: nat)
    requires n < |materials| && n < |outs| && Collect(materials, outs, n).Ok?
    ensures outs[n].Err? ==> Collect(materials, outs, n + 1) == Err(outs[n].error)
    ensures outs[n] == Ok(None) ==> Collect(materials, outs, n + 1) == Collect(materials, outs, n)
    ensures outs[n].Ok? && outs[n].value.Some? ==>
      Collect(materials, outs, n + 1) == Ok(Collect(materials, outs, n).value.Put(materials[n].name, outs[n].value.value))
  {
  }

  /** Once an outcome is an error, the load keeps that error. */
  lemma {:induction false} CollectErrorSticks(materials: seq<Material>, outs: seq<Outcome>, i: nat, n: nat)
    requires i <= n <= |materials| && n <= |outs| && Collect(materials, outs, i).Err?
    ensures Collect(materials, outs, n) == Collect(materials, outs, i)
  {
    if n > i {
      CollectErrorSticks(materials, outs, i, n - 1);
    }
  }

  /** The load succeeds exactly when no outcome is an error. */
  lemma {:induction false} CollectOk(materials: seq<Material>, outs: seq<Outcome>, n: nat)
    requires n <= |materials| && n <= |outs|
    ensures Collect(materials, outs, n).Ok? <==> forall k :: 0 <= k < n ==> outs[k].Ok?
  {
    if n > 0 {
      CollectOk(materials, outs, n - 1);
    }
  }

  /** After a successful load every material that produced vertices has
      its name stored, and the store stays duplicate-free. */
  lemma {:induction false} CollectCover(materials: seq<Material>, outs: seq<Outcome>, n: nat)
    requires n <= |materials| && n <= |outs| && Collect(materials, outs, n).Ok?
    ensures Collect(materials, outs, n).value.Valid()
    ensures forall k :: 0 <= k < n && outs[k].Ok? && outs[k].value.Some? ==> materials[k].name in Collect(materials, outs, n).value.items
  {
    if n > 0 {
      assert Collect(materials, outs, n - 1).Ok?;
      CollectCover(materials, outs, n - 1);
      CollectNext(materials, outs, n - 1);
      var d := Collect(materials, outs, n - 1).value.items;
      forall k | 0 <= k < n && outs[k].Ok? && outs[k].value.Some?
        ensures materials[k].name in Collect(materials, outs, n).value.items
      {
        if k < n - 1 {
          assert materials[k].name in d;
        }
      }
    }
  }

  /** After a successful load only names of materials that produced
      vertices are stored. */
  lemma {:induction false} CollectWithin(materials: seq<Material>, outs: seq<Outcome>, n: nat)
    requires n <= |materials| && n <= |outs| && Collect(materials, outs, n).Ok?
    ensures forall name :: name in Collect(materials, outs, n).value.items ==>
      exists k :: 0 <= k < n && materials[k].name == name && outs[k].Ok? && outs[k].value.Some?
  {
    if n > 0 {
      assert Collect(materials, outs, n - 1).Ok?;
      CollectWithin(materials, outs, n - 1);
      CollectNext(materials, outs, n - 1);
      var d := Collect(materials, outs, n - 1).value.items;
      forall name | name in Collect(materials, outs, n).value.items
        ensures exists k :: 0 <= k < n && materials[k].name == name && outs[k].Ok? && outs[k].value.Some?
      {
        if name in d {
          var k :| 0 <= k < n - 1 && materials[k].name == name && outs[k].Ok? && outs[k].value.Some?;
          assert 0 <= k < n;
        } else {
          assert 0 <= n - 1 < n && materials[n - 1].name == name;
        }
      }
    }
  }

  /** After a successful load the stored names are exactly those of the
      materials with a non-empty format string. */
  lemma LoadedNames(materials: seq<Material>)
    requires Loaded(materials).Ok?
    ensures Loaded(materials).value.Valid()
    ensures forall k :: 0 <= k < |materials| && materials[k].vertexFormat != [] ==> materials[k].name in Loaded(materials).value.items
    ensures forall name :: name in Loaded(materials).value.items ==>
      exists k :: 0 <= k < |materials| && materials[k].name == name && materials[k].vertexFormat != []
  {
    var outs := Outcomes(materials);
    CollectOk(materials, outs, |materials|);
    CollectCover(materials, outs, |materials|);
    CollectWithin(materials, outs, |materials|);
    forall k | 0 <= k < |materials| && materials[k].vertexFormat != []
      ensures materials[k].name in Loaded(materials).value.items
    {
      OutcomeAt(materials, |materials|, k);
      assert outs[k].Ok? && outs[k].value.Some?;
    }
    forall name | name in Loaded(materials).value.items
      ensures exists k :: 0 <= k < |materials| && materials[k].name == name && materials[k].vertexFormat != []
    {
      var k :| 0 <= k < |materials| && materials[k].name == name && outs[k].Ok? && outs[k].value.Some?;
      OutcomeAt(materials, |materials|, k);
      assert materials[k].vertexFormat != [];
    }
  }

  /** Loading one more material is one more turn of the loop. */
  lemma LoadedNext(materials: seq<Material>, n: nat, one: Outcome)
    requires n < |materials| && Collect(materials, Outcomes(materials), n).Ok? && one == LoadOne(materials[n])
    ensures one.Err? ==> Collect(materials, Outcomes(materials), n + 1) == Err(one.error)
    ensures one == Ok(None) ==> Collect(materials, Outcomes(materials), n + 1) == Collect(materials, Outcomes(materials), n)
    ensures one.Ok? && one.value.Some? ==> Collect(materials, Outcomes(materials), n + 1) == Ok(Collect(materials, Outcomes(materials), n).value.Put(materials[n].name, one.value.value))
  {
    OutcomeAt(materials, |materials|, n);
    CollectNext(materials, Outcomes(materials), n);
  }

  /** A material with a format string loads as its parsed format gives. */
  lemma LoadOneParsed(m: Material, fmt: Result<VertexFormat, FormatError>)
    requires m.vertexFormat != [] && fmt == FormatOf(m.vertexFormat)
    ensures fmt.Ok? ==> WellFormed(fmt.value)
    ensures LoadOne(m) == LoadParsed(fmt, m.vertices)
  {
    FormatOfWellFormed(m.vertexFormat);
  }

  /** The body of the material loop of `load` for one material: nothing
      for an empty format string, otherwise the format is parsed and the
      vertices are cut by it. */
  method LoadMaterial(m: Material) returns (r: Outcome)
    ensures r == LoadOne(m)
  {
    if m.vertexFormat == [] {
      return Ok(None);
    }
    var fmt := ParseVertexFormat(m.vertexFormat);
    LoadOneParsed(m, fmt);
    if fmt.Err? {
      return Err(BadFormat(fmt.error));
    }
    var points := SlicePoints(fmt.value, m.vertices);
    if points.Err? {
      return Err(points.error);
    }
    return Ok(Some(points.value));
  }

  /** The material loop of `load`: materials with an empty format string
      are skipped; every other one is parsed and cut into vertices, stored
      under its name; the first failure ends the load. */
  method LoadMaterials(materials: seq<Material>) returns (r: Result<Dict<string, seq<Point>>, LoadError>)
    ensures r == Loaded(materials)
  {
    var matwiseVerts: Dict<string, seq<Point>> := Empty();
    for n := 0 to |materials|
      invariant Collect(materials, Outcomes(materials), n) == Ok(matwiseVerts)
    {
      var one := LoadMaterial(materials[n]);
      LoadedNext(materials, n, one);
      match one
      case Err(e) =>
        CollectErrorSticks(materials, Outcomes(materials), n + 1, |materials|);
        return Err(e);
      case Ok(None) =>
      case Ok(Some(points)) =>
        matwiseVerts := matwiseVerts.Put(materials[n].name, points);
    }
    return Ok(matwiseVerts);
  }
}
