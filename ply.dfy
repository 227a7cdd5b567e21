/** The ASCII PLY loader `LoadMesh`: a header of `element` and `property`
    lines closed by `end_header`, then one line per vertex and one line per
    face. Float parsing is kept abstract (`Float`), integer parsing is a
    parameter `stoi`, and the file is given as its lines. */
module Ply {
  import opened Wrappers
  import opened EngineTypes

  /** The vertex components of the loader's `Cmp` enumeration. */
  datatype Cmp = PX | PY | PZ | NX | NY | NZ | U | V | R | G | B | A

  /** The loader's `count`, the size of its per-line `data` array. */
  const CmpCount: nat := 12

  /** A component's position in `data` (its enumerator value). */
  function Slot(c: Cmp): (k: nat)
    ensures k < CmpCount
  {
    match c
    case PX => 0 case PY => 1 case PZ => 2
    case NX => 3 case NY => 4 case NZ => 5
    case U => 6 case V => 7
    case R => 8 case G => 9 case B => 10 case A => 11
  }

  /** A `float` as the loader produces it: `stof` of a token, or the 0.5f
      that every component starts from. */
  datatype Float = Stof(token: string) | Half

  datatype Vec3 = Vec3(x: Float, y: Float, z: Float)
  datatype Vec2 = Vec2(x: Float, y: Float)

  /** `BaseVertex`: position, normal, texture coordinate, packed colour. */
  datatype Vertex = Vertex(pos: Vec3, normal: Vec3, uv: Vec2, color: u32)

  /** The colour every loaded vertex gets; red, green, blue and alpha are
      read but not used. */
  const LoadedColor: u32 := 0xff00ff00

  /** What the loader hands to `MakeMesh`. */
  datatype Geometry = Geometry(vertices: seq<Vertex>, indices: seq<u16>)

  /** How a stage of the loader ends: with a value, with `return {}`, or
      with the `std::length_error` that `vector::reserve` throws when a
      negative element count is converted to a huge `size_t`. */
  datatype Outcome<T> = Loaded(value: T) | Failed | LengthError

  // ---------------------------------------------------------------------
  // Tokens, as `istringstream >> std::string` produces them

  predicate IsSpace(c: char)
  {
    c == ' ' || c == '\t' || c == '\n' || c == '\r' || c == '\U{000B}' || c == '\U{000C}'
  }

  predicate IsToken(t: string)
  {
    t != [] && forall k :: 0 <= k < |t| ==> !IsSpace(t[k])
  }

  /** The end of the run of non-space characters starting at `i`. */
  function WordEnd(s: string, i: nat): (j: nat)
    requires i <= |s|
    ensures i <= j <= |s|
    ensures forall k :: i <= k < j ==> !IsSpace(s[k])
    ensures j == |s| || IsSpace(s[j])
    decreases |s| - i
  {
    if i == |s| || IsSpace(s[i]) then i else WordEnd(s, i + 1)
  }

  /** The whitespace-separated tokens of `s`, in order. */
  function Tokens(s: string): (r: seq<string>)
    decreases |s|
  {
    if s == [] then []
    else if IsSpace(s[0]) then Tokens(s[1..])
    else
      var j := WordEnd(s, 0);
      [s[..j]] + Tokens(s[j..])
  }

  /** The tokens joined by single spaces. */
  function Join(ts: seq<string>): (r: string)
  {
    if ts == [] then "" else if |ts| == 1 then ts[0] else ts[0] + " " + Join(ts[1..])
  }

  /** Every token is non-empty and holds no whitespace. */
  lemma {:induction false} TokensWellFormed(s: string)
    ensures forall k :: 0 <= k < |Tokens(s)| ==> IsToken(Tokens(s)[k])
    decreases |s|
  {
    if s != [] {
      if IsSpace(s[0]) {
        TokensWellFormed(s[1..]);
      } else {
        var j := WordEnd(s, 0);
        TokensWellFormed(s[j..]);
        assert Tokens(s) == [s[..j]] + Tokens(s[j..]);
      }
    }
  }

  lemma {:induction false} WordEndOfToken(t: string, rest: string, i: nat)
    requires IsToken(t) && i <= |t|
    requires rest == [] || IsSpace(rest[0])
    ensures WordEnd(t + rest, i) == |t|
    decreases |t| - i
  {
    if i < |t| {
      assert (t + rest)[i] == t[i];
      WordEndOfToken(t, rest, i + 1);
    }
  }

  lemma TokensCons(t: string, rest: string)
    requires IsToken(t)
    requires rest == [] || IsSpace(rest[0])
    ensures Tokens(t + rest) == [t] + Tokens(rest)
  {
    WordEndOfToken(t, rest, 0);
    assert (t + rest)[0] == t[0];
    assert (t + rest)[..|t|] == t;
    assert (t + rest)[|t|..] == rest;
  }

  /** Tokenising undoes joining with spaces. */
  lemma {:induction false} TokensOfJoin(ts: seq<string>)
    requires forall k :: 0 <= k < |ts| ==> IsToken(ts[k])
    ensures Tokens(Join(ts)) == ts
    decreases |ts|
  {
    if |ts| == 1 {
      TokensCons(ts[0], "");
      assert ts[0] + "" == ts[0];
    } else if |ts| > 1 {
      var rest := " " + Join(ts[1..]);
      TokensCons(ts[0], rest);
      assert ts[0] + " " + Join(ts[1..]) == ts[0] + rest;
      assert rest[1..] == Join(ts[1..]);
      TokensOfJoin(ts[1..]);
      assert [ts[0]] + ts[1..] == ts;
    }
  }

  /** The `k`-th string of `str >> s0 >> s1 >> ...`: a token when there is
      one; otherwise extraction fails and the string keeps `previous`. */
  function Field(toks: seq<string>, k: nat, previous: string): (r: string)
  {
    if k < |toks| then toks[k] else previous
  }

  // ---------------------------------------------------------------------
  // The property-name table, a `std::map` built from an initializer list

  /** The table as written in the loader, with `"u"` given twice. */
  const SourceTable: seq<(string, Cmp)> :=
    [("x", PX), ("y", PY), ("z", PZ), ("nx", NX), ("ny", NY), ("nz", NZ),
     ("u", U), ("u", V), ("red", R), ("green", G), ("blue", B), ("alpha", A)]

  /** The table with the evident intent: `"v"` for the second texture coordinate. */
  const IntendedTable: seq<(string, Cmp)> :=
    [("x", PX), ("y", PY), ("z", PZ), ("nx", NX), ("ny", NY), ("nz", NZ),
     ("u", U), ("v", V), ("red", R), ("green", G), ("blue", B), ("alpha", A)]

  predicate FirstKey(entries: seq<(string, Cmp)>, i: nat)
    requires i < |entries|
  {
    forall j :: 0 <= j < i ==> entries[j].0 != entries[i].0
  }

  /** A `std::map` constructed from `entries`: entries are inserted in
      order, and one whose key is already present is not inserted. The
      standard leaves open which of two equal keys is kept (LWG issue
      2844); keeping the first is what libstdc++ and libc++ do. */
  function BuildMap(entries: seq<(string, Cmp)>): (r: map<string, Cmp>)
    ensures forall i :: 0 <= i < |entries| ==> entries[i].0 in r
    decreases |entries|
  {
    if entries == [] then map[]
    else
      var m := BuildMap(entries[..|entries| - 1]);
      var e := entries[|entries| - 1];
      if e.0 in m then m else m[e.0 := e.1]
  }

  /** The value of the first entry whose key is `k`, if any: nothing
      exactly when no entry has that key, and otherwise the value of an
      entry with that key. */
  function FirstMatch(entries: seq<(string, Cmp)>, k: string): (r: Option<Cmp>)
    ensures r.None? <==> forall i :: 0 <= i < |entries| ==> entries[i].0 != k
    ensures r.Some? ==> (k, r.value) in entries
    decreases |entries|
  {
    if entries == [] then None
    else
      var found := FirstMatch(entries[..|entries| - 1], k);
      var e := entries[|entries| - 1];
      if found.Some? then found else if e.0 == k then Some(e.1) else None
  }

  /** The first entry for a key is the one found. */
  lemma {:induction false} FirstMatchAt(entries: seq<(string, Cmp)>, i: nat)
    requires i < |entries| && FirstKey(entries, i)
    ensures FirstMatch(entries, entries[i].0) == Some(entries[i].1)
    decreases |entries|
  {
    var n := |entries| - 1;
    if i < n {
      assert FirstKey(entries[..n], i) by {
        forall j | 0 <= j < i ensures entries[..n][j].0 != entries[..n][i].0 {
          assert entries[..n][j] == entries[j];
        }
      }
      FirstMatchAt(entries[..n], i);
    } else {
      assert forall j :: 0 <= j < n ==> entries[..n][j] == entries[j];
    }
  }

  /** Looking a key up in the constructed map finds the first entry for it. */
  lemma {:induction false} BuildMapLookup(entries: seq<(string, Cmp)>, k: string)
    ensures k in BuildMap(entries) <==> FirstMatch(entries, k).Some?
    ensures k in BuildMap(entries) ==> BuildMap(entries)[k] == FirstMatch(entries, k).value
    decreases |entries|
  {
    if entries != [] {
      BuildMapLookup(entries[..|entries| - 1], k);
    }
  }

  const SourceMap: map<string, Cmp> := BuildMap(SourceTable)
  const IntendedMap: map<string, Cmp> := BuildMap(IntendedTable)

  // ---------------------------------------------------------------------
  // Header

  /** An element group: its declared count (`stoi` of the count token) and
      its recognised properties in header order. */
  datatype Element = Element(count: int, cmps: seq<Cmp>)

  /** The header's element groups and the index of the first body line; or
      `Undefined`, for a header line whose effect the model does not
      determine: a `property` line before any `element` line
      (`format.back()` on an empty vector, which is undefined behaviour),
      or a line that is exactly `element` or `property`. For the latter the
      text after the keyword starts past the line's terminator in the
      512-byte line buffer, so it is the stale tail of an earlier, longer
      line (or uninitialised bytes when no earlier line reached that far);
      the model does not track the buffer's history. */
  datatype Header = Header(format: seq<Element>, bodyStart: nat) | Undefined

  predicate StartsWith(line: string, p: string)
  {
    |p| <= |line| && line[..|p|] == p
  }

  /** The property list of the last element, extended by `c`. */
  function AddCmp(format: seq<Element>, c: Cmp): (r: seq<Element>)
    requires format != []
  {
    var last := format[|format| - 1];
    format[..|format| - 1] + [Element(last.count, last.cmps + [c])]
  }

  /** What one header line does: it extends the groups read so far, ends
      the header, or is one whose effect the model does not determine
      (see `Undefined`). */
  datatype LineEffect = Continue(next: seq<Element>) | EndHeader | BadLine

  /** One header line, with the groups `format` read so far: `element`
      opens a group counting `stoi` of its second word, `property` adds the
      table's component for its second word (if the table knows it) to the
      last group, `end_header` ends the header, and any other line is
      skipped. */
  function HeaderStep(table: map<string, Cmp>, stoi: string -> int, line: string, format: seq<Element>): (r: LineEffect)
  {
    if StartsWith(line, "element") then
      if |line| < 8 then BadLine
      else Continue(format + [Element(stoi(Field(Tokens(line[8..]), 1, "")), [])])
    else if StartsWith(line, "property") then
      if |line| < 9 || format == [] then BadLine
      else
        var name := Field(Tokens(line[9..]), 1, "");
        Continue(if name in table then AddCmp(format, table[name]) else format)
    else if StartsWith(line, "end_header") then EndHeader
    else Continue(format)
  }

  /** The header scan from line `i` with the groups `format` read so far. */
  function HeaderFrom(table: map<string, Cmp>, stoi: string -> int, lines: seq<string>,
                      i: nat, format: seq<Element>): (h: Header)
    requires i <= |lines|
    ensures h.Header? ==> h.bodyStart <= |lines|
    decreases |lines| - i
  {
    if i == |lines| then Header(format, i)
    else
      match HeaderStep(table, stoi, lines[i], format)
      case BadLine => Undefined
      case EndHeader => Header(format, i + 1)
      case Continue(next) => HeaderFrom(table, stoi, lines, i + 1, next)
  }

  function ParseHeader(table: map<string, Cmp>, stoi: string -> int, lines: seq<string>): (r: Header)
  {
    HeaderFrom(table, stoi, lines, 0, [])
  }

  // ---------------------------------------------------------------------
  // Body

  function Halves(): (d: seq<Float>)
  {
    seq(CmpCount, _ => Half)
  }

  /** `data` and `item` after the first `|cmps|` extractions of one vertex
      line with tokens `toks`; `item` holds the last string extracted before
      the line (the variable lives across lines). */
  function VertexFill(cmps: seq<Cmp>, toks: seq<string>, item: string): (r: (seq<Float>, string))
    ensures |r.0| == CmpCount
    decreases |cmps|
  {
    if cmps == [] then (Halves(), item)
    else
      var before := VertexFill(cmps[..|cmps| - 1], toks, item);
      var it := Field(toks, |cmps| - 1, before.1);
      (before.0[Slot(cmps[|cmps| - 1]) := Stof(it)], it)
  }

  function ToVertex(d: seq<Float>): (r: Vertex)
    requires |d| == CmpCount
  {
    Vertex(Vec3(d[Slot(PX)], d[Slot(PY)], d[Slot(PZ)]),
           Vec3(d[Slot(NX)], d[Slot(NY)], d[Slot(NZ)]),
           Vec2(d[Slot(U)], d[Slot(V)]),
           LoadedColor)
  }

  /** One vertex line: the vertex it yields and `item` after it. */
  function VertexStep(cmps: seq<Cmp>, line: string, item: string): (r: (Vertex, string))
  {
    var d := VertexFill(cmps, Tokens(line), item);
    (ToVertex(d.0), d.1)
  }

  /** The vertices of the first `k` body lines from `start`, and `item` after them. */
  function VerticesUpTo(cmps: seq<Cmp>, lines: seq<string>, start: nat, k: nat): (r: (seq<Vertex>, string))
    requires start + k <= |lines|
    ensures |r.0| == k
    decreases k
  {
    if k == 0 then ([], "")
    else
      var before := VerticesUpTo(cmps, lines, start, k - 1);
      var step := VertexStep(cmps, lines[start + k - 1], before.1);
      (before.0 + [step.0], step.1)
  }

  /** The strings `c, v0, v1, v2` of the face loop, which live across lines. */
  datatype FaceFields = FaceFields(c: string, v0: string, v1: string, v2: string)

  function NextFields(toks: seq<string>, f: FaceFields): (r: FaceFields)
  {
    FaceFields(Field(toks, 0, f.c), Field(toks, 1, f.v0), Field(toks, 2, f.v1), Field(toks, 3, f.v2))
  }

  /** One face line: the three indices it yields (the strings after the
      first, converted with `stoi` and then to `uint16_t`) and the fields
      after it. */
  function FaceStep(stoi: string -> int, line: string, f: FaceFields): (r: (seq<u16>, FaceFields))
    ensures |r.0| == 3
  {
    var g := NextFields(Tokens(line), f);
    ([ToU16(stoi(g.v0)), ToU16(stoi(g.v1)), ToU16(stoi(g.v2))], g)
  }

  /** The indices of the first `k` face lines from `start`, and the fields after them. */
  function FacesUpTo(stoi: string -> int, lines: seq<string>, start: nat, k: nat): (r: (seq<u16>, FaceFields))
    requires start + k <= |lines|
    ensures |r.0| == 3 * k
    decreases k
  {
    if k == 0 then ([], FaceFields("", "", "", ""))
    else
      var before := FacesUpTo(stoi, lines, start, k - 1);
      var step := FaceStep(stoi, lines[start + k - 1], before.1);
      (before.0 + step.0, step.1)
  }

  predicate HeaderDefined(table: map<string, Cmp>, stoi: string -> int, file: Option<seq<string>>)
  {
    file.Some? ==> ParseHeader(table, stoi, file.value).Header?
  }

  /** What the loader computes from the lines of a file that opened. */
  function Load(table: map<string, Cmp>, stoi: string -> int, lines: seq<string>): (r: Outcome<Geometry>)
    requires ParseHeader(table, stoi, lines).Header?
    ensures r.Loaded? ==> |ParseHeader(table, stoi, lines).format| == 2
    ensures r.Loaded? ==>
      ParseHeader(table, stoi, lines).bodyStart + |r.value.vertices| + |r.value.indices| / 3 <= |lines|
  {
    var h := ParseHeader(table, stoi, lines);
    LoadBody(stoi, lines, h.format, h.bodyStart)
  }

  /** The vertex block's outcome: `reserve` throws for a negative count;
      otherwise `count` lines from `start`, or `return {}` when the file
      ends first. */
  function VerticesOf(cmps: seq<Cmp>, count: int, lines: seq<string>, start: nat): (r: Outcome<seq<Vertex>>)
  {
    if count < 0 then LengthError
    else if start + count <= |lines| then Loaded(VerticesUpTo(cmps, lines, start, count).0)
    else Failed
  }

  /** The face block's outcome: `reserve(3 * count)` throws for a negative
      count; otherwise `count` lines from `start`, or `return {}` when the
      file ends first. */
  function FacesOf(stoi: string -> int, count: int, lines: seq<string>, start: nat): (r: Outcome<seq<u16>>)
  {
    if count < 0 then LengthError
    else if start + count <= |lines| then Loaded(FacesUpTo(stoi, lines, start, count).0)
    else Failed
  }

  /** The body of the file after a header that yielded `format` and ended
      before line `bodyStart`: exactly two element groups, the first read
      as vertices and the second, right after it, as faces. The face block
      runs only when the vertex block completed. */
  function LoadBody(stoi: string -> int, lines: seq<string>, format: seq<Element>, bodyStart: nat): (r: Outcome<Geometry>)
    ensures r.Loaded? ==>
      |format| == 2 && |r.value.vertices| == format[0].count && |r.value.indices| == 3 * format[1].count &&
      bodyStart + format[0].count + format[1].count <= |lines|
    ensures r.LengthError? ==> |format| == 2 && (format[0].count < 0 || format[1].count < 0)
  {
    if |format| != 2 then Failed
    else
      match VerticesOf(format[0].cmps, format[0].count, lines, bodyStart)
      case LengthError => LengthError
      case Failed => Failed
      case Loaded(vs) =>
        match FacesOf(stoi, format[1].count, lines, bodyStart + |vs|)
        case LengthError => LengthError
        case Failed => Failed
        case Loaded(fs) => Loaded(Geometry(vs, fs))
  }

  /** The header loop of `LoadMesh`: read lines until `end_header` or the
      end of the file, collecting element groups and recognised properties. */
  method ReadHeader(table: map<string, Cmp>, stoi: string -> int, lines: seq<string>)
    returns (format: seq<Element>, pos: nat)
    requires ParseHeader(table, stoi, lines).Header?
    ensures ParseHeader(table, stoi, lines) == Header(format, pos)
  {
    format, pos := [], 0;
    while pos < |lines|
      invariant pos <= |lines|
      invariant HeaderFrom(table, stoi, lines, pos, format) == ParseHeader(table, stoi, lines)
    {
      var line := lines[pos];
      pos := pos + 1;
      if StartsWith(line, "element") {
        var toks := Tokens(line[8..]);
        var count := Field(toks, 1, "");
        format := format + [Element(stoi(count), [])];
      } else if StartsWith(line, "property") {
        var toks := Tokens(line[9..]);
        var name := Field(toks, 1, "");
        if name in table {
          var last := format[|format| - 1];
          format := format[..|format| - 1] + [Element(last.count, last.cmps + [table[name]])];
        }
      } else if StartsWith(line, "end_header") {
        return;
      }
    }
  }

  /** One vertex line: reset `data` to 0.5 and store the next extracted
      string for each recognised property in turn. */
  method ReadVertexLine(cmps: seq<Cmp>, line: string, data: array<Float>, item0: string)
    returns (v: Vertex, item: string)
    requires data.Length == CmpCount
    modifies data
    ensures data[..] == VertexFill(cmps, Tokens(line), item0).0
    ensures (v, item) == VertexStep(cmps, line, item0)
  {
    var toks := Tokens(line);
    var s := 0;
    while s < CmpCount
      invariant 0 <= s <= CmpCount
      invariant forall t :: 0 <= t < s ==> data[t] == Half
    {
      data[s] := Half;
      s := s + 1;
    }
    assert data[..] == Halves();
    item := item0;
    var j := 0;
    while j < |cmps|
      invariant 0 <= j <= |cmps|
      invariant (data[..], item) == VertexFill(cmps[..j], toks, item0)
    {
      assert cmps[..j + 1][..j] == cmps[..j];
      if j < |toks| {
        item := toks[j];
      }
      data[Slot(cmps[j])] := Stof(item);
      j := j + 1;
    }
    assert cmps[..j] == cmps;
    v := ToVertex(data[..]);
  }

  /** One more body line adds the vertex it yields. */
  lemma VerticesUpToNext(cmps: seq<Cmp>, lines: seq<string>, start: nat, k: nat,
                         vs: seq<Vertex>, item: string, v: Vertex, item': string)
    requires start + k < |lines|
    requires (vs, item) == VerticesUpTo(cmps, lines, start, k)
    requires (v, item') == VertexStep(cmps, lines[start + k], item)
    ensures (vs + [v], item') == VerticesUpTo(cmps, lines, start, k + 1)
  {
  }

  /** The vertex block: `reserve`, then `count` lines from `start`. */
  method ReadVertices(cmps: seq<Cmp>, count: int, lines: seq<string>, start: nat)
    returns (r: Outcome<seq<Vertex>>)
    requires start <= |lines|
    ensures r == VerticesOf(cmps, count, lines, start)
  {
    if count < 0 {
      return LengthError;
    }
    var vertice: seq<Vertex> := [];
    var data := new Float[CmpCount];
    var item := "";
    var pos := start;
    var i := 0;
    while i < count
      invariant 0 <= i <= count
      invariant pos == start + i <= |lines|
      invariant (vertice, item) == VerticesUpTo(cmps, lines, start, i)
    {
      if pos >= |lines| {
        return Failed;
      }
      var v, item' := ReadVertexLine(cmps, lines[pos], data, item);
      VerticesUpToNext(cmps, lines, start, i, vertice, item, v, item');
      vertice, item := vertice + [v], item';
      pos, i := pos + 1, i + 1;
    }
    return Loaded(vertice);
  }

  /** The face block: `reserve`, then `count` lines from `start`; each
      line gives the three strings after its first one. */
  method ReadFaces(stoi: string -> int, count: int, lines: seq<string>, start: nat)
    returns (r: Outcome<seq<u16>>)
    requires start <= |lines|
    ensures r == FacesOf(stoi, count, lines, start)
  {
    if count < 0 {
      return LengthError;
    }
    var indice: seq<u16> := [];
    var c, v0, v1, v2 := "", "", "", "";
    var pos := start;
    var i := 0;
    while i < count
      invariant 0 <= i <= count
      invariant pos == start + i <= |lines|
      invariant (indice, FaceFields(c, v0, v1, v2)) == FacesUpTo(stoi, lines, start, i)
    {
      if pos >= |lines| {
        return Failed;
      }
      var toks := Tokens(lines[pos]);
      pos := pos + 1;
      c, v0, v1, v2 := Field(toks, 0, c), Field(toks, 1, v0), Field(toks, 2, v1), Field(toks, 3, v2);
      indice := indice + [ToU16(stoi(v0)), ToU16(stoi(v1)), ToU16(stoi(v2))];
      i := i + 1;
    }
    return Loaded(indice);
  }

  /** The mesh `LoadMesh` returns for the lines of a file that opened:
      `MakeMesh` of the loaded geometry, with `vid` and `iid` the ids the
      GPU layer gives its two buffers. */
  function LoadedMesh(table: map<string, Cmp>, stoi: string -> int, lines: seq<string>, vid: u32, iid: u32): (r: Outcome<Mesh>)
    requires ParseHeader(table, stoi, lines).Header?
    ensures r.Loaded? <==> Load(table, stoi, lines).Loaded?
    ensures r.LengthError? <==> Load(table, stoi, lines).LengthError?
    ensures r.Loaded? ==>
      r.value.vid == vid && r.value.iid == iid && r.value.diffuse == 0 &&
      r.value.pcount == |Load(table, stoi, lines).value.indices|
  {
    match Load(table, stoi, lines)
    case LengthError => LengthError
    case Failed => Failed
    case Loaded(g) => Loaded(MakeMesh(vid, iid, g.vertices, g.indices))
  }

  /** `LoadMesh`: `file` is `None` when the file cannot be opened, and
      otherwise its lines. `Failed` is the empty `std::optional`, and
      `LengthError` the exception escaping to the caller. */
  method LoadMesh(table: map<string, Cmp>, stoi: string -> int, file: Option<seq<string>>, vid: u32, iid: u32)
    returns (r: Outcome<Mesh>)
    requires HeaderDefined(table, stoi, file)
    ensures file.None? ==> r == Failed
    ensures file.Some? ==> r == LoadedMesh(table, stoi, file.value, vid, iid)
  {
    if file.None? {
      return Failed;
    }
    var g := LoadLines(table, stoi, file.value);
    match g
    case LengthError => return LengthError;
    case Failed => return Failed;
    case Loaded(geometry) => return Loaded(MakeMesh(vid, iid, geometry.vertices, geometry.indices));
  }

  /** The loader on the lines of a file that opened. */
  method LoadLines(table: map<string, Cmp>, stoi: string -> int, lines: seq<string>)
    returns (r: Outcome<Geometry>)
    requires ParseHeader(table, stoi, lines).Header?
    ensures r == Load(table, stoi, lines)
  {
    var format, pos := ReadHeader(table, stoi, lines);
    r := ReadBody(stoi, lines, format, pos);
  }

  /** The checks and loops after the header. */
  method ReadBody(stoi: string -> int, lines: seq<string>, format: seq<Element>, bodyStart: nat)
    returns (r: Outcome<Geometry>)
    requires bodyStart <= |lines|
    ensures r == LoadBody(stoi, lines, format, bodyStart)
  {
    if |format| != 2 {
      return Failed;
    }
    var vertice := ReadVertices(format[0].cmps, format[0].count, lines, bodyStart);
    match vertice
    case LengthError => return LengthError;
    case Failed => return Failed;
    case Loaded(vs) =>
      var indice := ReadFaces(stoi, format[1].count, lines, bodyStart + |vs|);
      match indice
      case LengthError => return LengthError;
      case Failed => return Failed;
      case Loaded(fs) => return Loaded(Geometry(vs, fs));
  }
}
