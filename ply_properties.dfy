/** What the PLY loader guarantees: when it fails, how many vertices and
    indices it returns, which token ends up in which vertex component, and
    the quirks of its property table. */
module PlyProperties {
  import opened EngineTypes
  import opened Ply

  /** After the header, the loader throws `std::length_error` iff there are
      two groups and the vertex count is negative, or the vertex lines are
      all there and the face count is negative. It succeeds iff there are
      two groups with non-negative counts and the file holds all their
      lines; it then returns one vertex per declared vertex, read from the
      lines right after the header, and three indices per declared face,
      read from the lines after the vertices. */
  lemma LoadShape(stoi: string -> int, lines: seq<string>, format: seq<Element>, bodyStart: nat)
    ensures LoadBody(stoi, lines, format, bodyStart).LengthError? <==>
      |format| == 2 &&
      (format[0].count < 0 || (bodyStart + format[0].count <= |lines| && format[1].count < 0))
    ensures LoadBody(stoi, lines, format, bodyStart).Loaded? <==>
      |format| == 2 && format[0].count >= 0 && format[1].count >= 0 &&
      bodyStart + format[0].count + format[1].count <= |lines|
    ensures LoadBody(stoi, lines, format, bodyStart).Loaded? ==>
      LoadBody(stoi, lines, format, bodyStart).value.vertices ==
        VerticesUpTo(format[0].cmps, lines, bodyStart, format[0].count).0
    ensures LoadBody(stoi, lines, format, bodyStart).Loaded? ==>
      LoadBody(stoi, lines, format, bodyStart).value.indices ==
        FacesUpTo(stoi, lines, bodyStart + format[0].count, format[1].count).0
    ensures LoadBody(stoi, lines, format, bodyStart).Loaded? ==>
      |LoadBody(stoi, lines, format, bodyStart).value.vertices| == format[0].count &&
      |LoadBody(stoi, lines, format, bodyStart).value.indices| == 3 * format[1].count
  {
    if |format| == 2 {
      var c0 := format[0].count;
      if 0 <= c0 && bodyStart + c0 <= |lines| {
        var vs := VerticesUpTo(format[0].cmps, lines, bodyStart, c0).0;
        assert VerticesOf(format[0].cmps, c0, lines, bodyStart) == Loaded(vs);
        assert bodyStart + |vs| == bodyStart + c0;
      }
    }
  }

  /** A loaded mesh draws three indices per declared face, so it is drawn
      at all (`pcount > 0`) iff the face group declares at least one face. */
  lemma LoadedMeshDrawCount(table: map<string, Cmp>, stoi: string -> int, lines: seq<string>, vid: u32, iid: u32)
    requires ParseHeader(table, stoi, lines).Header?
    requires LoadedMesh(table, stoi, lines, vid, iid).Loaded?
    ensures var h := ParseHeader(table, stoi, lines);
      var m := LoadedMesh(table, stoi, lines, vid, iid).value;
      |h.format| == 2 && m.pcount == 3 * h.format[1].count &&
      (m.pcount > 0 <==> h.format[1].count > 0) && m.vid == vid && m.iid == iid
  {
    var h := ParseHeader(table, stoi, lines);
    LoadShape(stoi, lines, h.format, h.bodyStart);
  }

  /** The value a vertex keeps for a stored component (the colour
      components are read into `data` but not stored). */
  function Component(v: Vertex, c: Cmp): (r: Float)
    requires Slot(c) < 8
  {
    match c
    case PX => v.pos.x case PY => v.pos.y case PZ => v.pos.z
    case NX => v.normal.x case NY => v.normal.y case NZ => v.normal.z
    case U => v.uv.x case V => v.uv.y
  }

  lemma ComponentOfVertex(d: seq<Float>, c: Cmp)
    requires |d| == CmpCount && Slot(c) < 8
    ensures Component(ToVertex(d), c) == d[Slot(c)]
  {
  }

  /** A component that no recognised property names stays 0.5. */
  lemma {:induction false} VertexFillUntouched(cmps: seq<Cmp>, toks: seq<string>, item: string, c: Cmp)
    requires c !in cmps
    ensures VertexFill(cmps, toks, item).0[Slot(c)] == Half
    decreases |cmps|
  {
    if cmps != [] {
      assert cmps[|cmps| - 1] in cmps;
      VertexFillUntouched(cmps[..|cmps| - 1], toks, item, c);
    }
  }

  /** The `j`-th recognised property takes the `j`-th token of the line
      (unless a later property names the same component). */
  lemma {:induction false} VertexFillTaken(cmps: seq<Cmp>, toks: seq<string>, item: string, j: nat)
    requires j < |cmps| && j < |toks|
    requires forall l :: j < l < |cmps| ==> cmps[l] != cmps[j]
    ensures VertexFill(cmps, toks, item).0[Slot(cmps[j])] == Stof(toks[j])
    decreases |cmps|
  {
    var n := |cmps| - 1;
    if j < n {
      assert cmps[..n][j] == cmps[j];
      VertexFillTaken(cmps[..n], toks, item, j);
      assert Slot(cmps[n]) != Slot(cmps[j]);
    }
  }

  /** The `k`-th vertex comes from the `k`-th body line, with `item` as the
      lines before it left it. */
  lemma {:induction false} VerticesAt(cmps: seq<Cmp>, lines: seq<string>, start: nat, n: nat, k: nat)
    requires start + n <= |lines| && k < n
    ensures VerticesUpTo(cmps, lines, start, n).0[k] ==
            ToVertex(VertexFill(cmps, Tokens(lines[start + k]), VerticesUpTo(cmps, lines, start, k).1).0)
    decreases n
  {
    if k < n - 1 {
      VerticesAt(cmps, lines, start, n - 1, k);
    }
  }

  /** The three indices of the `k`-th face come from the `k`-th face line. */
  lemma {:induction false} FacesAt(stoi: string -> int, lines: seq<string>, start: nat, n: nat, k: nat)
    requires start + n <= |lines| && k < n
    ensures var all := FacesUpTo(stoi, lines, start, n).0;
      var face := FaceStep(stoi, lines[start + k], FacesUpTo(stoi, lines, start, k).1).0;
      all[3 * k] == face[0] && all[3 * k + 1] == face[1] && all[3 * k + 2] == face[2]
    decreases n
  {
    var before := FacesUpTo(stoi, lines, start, n - 1);
    var step := FaceStep(stoi, lines[start + n - 1], before.1);
    assert FacesUpTo(stoi, lines, start, n).0 == before.0 + step.0;
    if k < n - 1 {
      FacesAt(stoi, lines, start, n - 1, k);
      TripleOfPrefix(before.0, step.0, k);
    } else {
      TripleOfPrefix(before.0 + step.0, [], k);
    }
  }

  /** A triple inside `a` is unchanged by appending `b`. */
  lemma TripleOfPrefix(a: seq<u16>, b: seq<u16>, k: nat)
    requires 3 * k + 2 < |a|
    ensures (a + b)[3 * k] == a[3 * k] && (a + b)[3 * k + 1] == a[3 * k + 1] && (a + b)[3 * k + 2] == a[3 * k + 2]
  {
  }

  /** A loaded vertex takes the `j`-th token of its line for the `j`-th
      recognised property of the vertex group; properties the table does not
      know do not take a token, so the tokens after one shift to the left. */
  lemma LoadedVertexComponent(stoi: string -> int, lines: seq<string>, format: seq<Element>, bodyStart: nat,
                              k: nat, j: nat)
    requires LoadBody(stoi, lines, format, bodyStart).Loaded?
    requires k < |LoadBody(stoi, lines, format, bodyStart).value.vertices|
    requires var cmps := format[0].cmps;
      j < |cmps| && Slot(cmps[j]) < 8 && j < |Tokens(lines[bodyStart + k])| &&
      forall l :: j < l < |cmps| ==> cmps[l] != cmps[j]
    ensures Component(LoadBody(stoi, lines, format, bodyStart).value.vertices[k], format[0].cmps[j])
            == Stof(Tokens(lines[bodyStart + k])[j])
  {
    LoadShape(stoi, lines, format, bodyStart);
    var cmps := format[0].cmps;
    var toks := Tokens(lines[bodyStart + k]);
    var item := VerticesUpTo(cmps, lines, bodyStart, k).1;
    VerticesAt(cmps, lines, bodyStart, format[0].count, k);
    VertexFillTaken(cmps, toks, item, j);
    ComponentOfVertex(VertexFill(cmps, toks, item).0, cmps[j]);
  }

  /** A component that the vertex group does not list is 0.5 in every
      loaded vertex, and every loaded vertex has the constant colour. */
  lemma LoadedVertexDefaults(stoi: string -> int, lines: seq<string>, format: seq<Element>, bodyStart: nat,
                             k: nat, c: Cmp)
    requires LoadBody(stoi, lines, format, bodyStart).Loaded?
    requires k < |LoadBody(stoi, lines, format, bodyStart).value.vertices|
    ensures LoadBody(stoi, lines, format, bodyStart).value.vertices[k].color == LoadedColor
    ensures Slot(c) < 8 && c !in format[0].cmps ==>
              Component(LoadBody(stoi, lines, format, bodyStart).value.vertices[k], c) == Half
  {
    LoadShape(stoi, lines, format, bodyStart);
    var cmps := format[0].cmps;
    var toks := Tokens(lines[bodyStart + k]);
    var item := VerticesUpTo(cmps, lines, bodyStart, k).1;
    VerticesAt(cmps, lines, bodyStart, format[0].count, k);
    if Slot(c) < 8 && c !in cmps {
      VertexFillUntouched(cmps, toks, item, c);
      ComponentOfVertex(VertexFill(cmps, toks, item).0, c);
    }
  }

  /** A face line with at least four tokens yields its tokens 2 to 4,
      whatever earlier lines left in the fields. */
  lemma FullFaceLine(stoi: string -> int, line: string, f: FaceFields)
    requires |Tokens(line)| >= 4
    ensures var toks := Tokens(line);
      FaceStep(stoi, line, f).0 == [ToU16(stoi(toks[1])), ToU16(stoi(toks[2])), ToU16(stoi(toks[3]))]
  {
  }

  /** Face `k` of the face lines from `start` yields tokens 2 to 4 of its
      line when it has at least four. */
  lemma FaceOfLines(stoi: string -> int, lines: seq<string>, start: nat, n: nat, k: nat)
    requires start + n <= |lines| && k < n
    requires |Tokens(lines[start + k])| >= 4
    ensures var toks := Tokens(lines[start + k]);
      var indices := FacesUpTo(stoi, lines, start, n).0;
      indices[3 * k] == ToU16(stoi(toks[1])) &&
      indices[3 * k + 1] == ToU16(stoi(toks[2])) &&
      indices[3 * k + 2] == ToU16(stoi(toks[3]))
  {
    FullFaceLine(stoi, lines[start + k], FacesUpTo(stoi, lines, start, k).1);
    FacesAt(stoi, lines, start, n, k);
  }

  /** Face `k` yields tokens 2 to 4 of its line, converted to `uint16_t`;
      the leading vertex-count token is ignored. */
  lemma LoadedFace(stoi: string -> int, lines: seq<string>, format: seq<Element>, bodyStart: nat, k: nat)
    requires LoadBody(stoi, lines, format, bodyStart).Loaded?
    requires k < format[1].count
    requires |Tokens(lines[bodyStart + format[0].count + k])| >= 4
    ensures var toks := Tokens(lines[bodyStart + format[0].count + k]);
      var indices := LoadBody(stoi, lines, format, bodyStart).value.indices;
      indices[3 * k] == ToU16(stoi(toks[1])) &&
      indices[3 * k + 1] == ToU16(stoi(toks[2])) &&
      indices[3 * k + 2] == ToU16(stoi(toks[3]))
  {
    LoadShape(stoi, lines, format, bodyStart);
    var start := bodyStart + format[0].count;
    var toks := Tokens(lines[start + k]);
    var faces := FacesUpTo(stoi, lines, start, format[1].count).0;
    assert LoadBody(stoi, lines, format, bodyStart).value.indices == faces;
    FaceOfLines(stoi, lines, start, format[1].count, k);
    assert faces[3 * k] == ToU16(stoi(toks[1]));
    assert faces[3 * k + 1] == ToU16(stoi(toks[2]));
    assert faces[3 * k + 2] == ToU16(stoi(toks[3]));
  }

  // ---------------------------------------------------------------------
  // The property table

  predicate CmpsFrom(table: map<string, Cmp>, format: seq<Element>)
  {
    forall e, c :: e in format && c in e.cmps ==> exists k :: k in table && table[k] == c
  }

  /** One header line only adds components that are values of the table. */
  lemma StepCmpsFromTable(table: map<string, Cmp>, stoi: string -> int, line: string, format: seq<Element>)
    requires CmpsFrom(table, format)
    ensures HeaderStep(table, stoi, line, format).Continue? ==> CmpsFrom(table, HeaderStep(table, stoi, line, format).next)
  {
    if StartsWith(line, "element") && 8 <= |line| {
      var next := format + [Element(stoi(Field(Tokens(line[8..]), 1, "")), [])];
      assert CmpsFrom(table, next);
    } else if !StartsWith(line, "element") && StartsWith(line, "property") && 9 <= |line| && format != [] {
      var name := Field(Tokens(line[9..]), 1, "");
      if name in table {
        var next := AddCmp(format, table[name]);
        forall e, c | e in next && c in e.cmps
          ensures exists k :: k in table && table[k] == c
        {
          if e in format[..|format| - 1] {
            assert e in format;
          } else if c !in format[|format| - 1].cmps {
            assert table[name] == c;
          }
        }
      }
    }
  }

  /** Every recognised property is a value of the table. */
  lemma {:induction false} HeaderCmpsFromTable(table: map<string, Cmp>, stoi: string -> int, lines: seq<string>,
                                               i: nat, format: seq<Element>)
    requires i <= |lines|
    requires CmpsFrom(table, format)
    requires HeaderFrom(table, stoi, lines, i, format).Header?
    ensures CmpsFrom(table, HeaderFrom(table, stoi, lines, i, format).format)
    decreases |lines| - i
  {
    if i < |lines| {
      StepCmpsFromTable(table, stoi, lines[i], format);
      match HeaderStep(table, stoi, lines[i], format)
      case Continue(next) => HeaderCmpsFromTable(table, stoi, lines, i + 1, next);
      case EndHeader =>
      case BadLine =>
    }
  }

  /** The map built from `entries` binds the key of entry `i` to its value
      when no earlier entry has that key. */
  lemma MapKeepsFirst(entries: seq<(string, Cmp)>, i: nat)
    requires i < |entries| && FirstKey(entries, i)
    ensures entries[i].0 in BuildMap(entries) && BuildMap(entries)[entries[i].0] == entries[i].1
  {
    BuildMapLookup(entries, entries[i].0);
    FirstMatchAt(entries, i);
  }

  /** A key that no entry has is not in the map built from `entries`. */
  lemma MapLacks(entries: seq<(string, Cmp)>, k: string)
    requires forall i :: 0 <= i < |entries| ==> entries[i].0 != k
    ensures k !in BuildMap(entries)
  {
    BuildMapLookup(entries, k);
  }

  /** Every binding of the map built from `entries` is one of the entries. */
  lemma MapFromEntries(entries: seq<(string, Cmp)>, k: string)
    requires k in BuildMap(entries)
    ensures exists i :: 0 <= i < |entries| && entries[i] == (k, BuildMap(entries)[k])
  {
    BuildMapLookup(entries, k);
  }

  /** As written, the table's second `"u"` entry is never inserted: `"u"`
      stays the first texture coordinate, `"v"` is not a key and no key maps
      to `V`. */
  lemma SourceTableSkipsV()
    ensures "u" in SourceMap && SourceMap["u"] == U
    ensures "v" !in SourceMap
    ensures forall k :: k in SourceMap ==> SourceMap[k] != V
  {
    assert SourceTable[6] == ("u", U) && FirstKey(SourceTable, 6);
    MapKeepsFirst(SourceTable, 6);
    assert forall i :: 0 <= i < |SourceTable| ==> SourceTable[i].0 != "v";
    MapLacks(SourceTable, "v");
    forall k | k in SourceMap
      ensures SourceMap[k] != V
    {
      MapFromEntries(SourceTable, k);
      var i :| 0 <= i < |SourceTable| && SourceTable[i] == (k, SourceMap[k]);
      assert i != 7 || k == "u";
    }
  }

  /** With the table as written, no loaded vertex ever gets a second texture
      coordinate other than 0.5. */
  lemma SourceLoaderNeverReadsV(stoi: string -> int, lines: seq<string>, k: nat)
    requires ParseHeader(SourceMap, stoi, lines).Header?
    requires Load(SourceMap, stoi, lines).Loaded?
    requires k < |Load(SourceMap, stoi, lines).value.vertices|
    ensures Load(SourceMap, stoi, lines).value.vertices[k].uv.y == Half
  {
    SourceTableSkipsV();
    var h := ParseHeader(SourceMap, stoi, lines);
    HeaderCmpsFromTable(SourceMap, stoi, lines, 0, []);
    assert h.format[0] in h.format;
    assert V !in h.format[0].cmps;
    LoadedVertexDefaults(stoi, lines, h.format, h.bodyStart, k, V);
  }

  /** With `"v"` in place of the second `"u"`, both texture coordinates are
      recognised. */
  lemma IntendedTableReadsV()
    ensures "u" in IntendedMap && IntendedMap["u"] == U
    ensures "v" in IntendedMap && IntendedMap["v"] == V
  {
    assert IntendedTable[6] == ("u", U) && FirstKey(IntendedTable, 6);
    MapKeepsFirst(IntendedTable, 6);
    assert IntendedTable[7] == ("v", V) && FirstKey(IntendedTable, 7);
    MapKeepsFirst(IntendedTable, 7);
  }

  // ---------------------------------------------------------------------
  // The header scan, line by line

  predicate AllTokens(ts: seq<string>)
  {
    forall k :: 0 <= k < |ts| ==> IsToken(ts[k])
  }

  /** The words of the example headers below are tokens. */
  lemma HeaderWords()
    ensures IsToken("vertex") && IsToken("face") && IsToken("float")
  {
    assert "vertex"[0] == 'v' && "face"[0] == 'f' && "float"[0] == 'f';
  }

  /** A header line: a keyword, a space and the tokens `toks`. */
  function KeywordLine(keyword: string, toks: seq<string>): (r: string)
  {
    keyword + " " + Join(toks)
  }

  lemma KeywordLineTokens(keyword: string, toks: seq<string>)
    requires AllTokens(toks)
    ensures Tokens(KeywordLine(keyword, toks)[|keyword| + 1..]) == toks
  {
    assert KeywordLine(keyword, toks)[|keyword| + 1..] == Join(toks);
    TokensOfJoin(toks);
  }

  /** The line `a b` splits into `a` and `b`. */
  lemma TwoTokens(a: string, b: string)
    requires IsToken(a) && IsToken(b)
    ensures Tokens(Join([a, b])) == [a, b]
  {
    assert AllTokens([a, b]);
    TokensOfJoin([a, b]);
  }

  /** The line `a b c` splits into `a`, `b` and `c`. */
  lemma ThreeTokens(a: string, b: string, c: string)
    requires IsToken(a) && IsToken(b) && IsToken(c)
    ensures Tokens(Join([a, b, c])) == [a, b, c]
  {
    assert AllTokens([a, b, c]);
    TokensOfJoin([a, b, c]);
  }

  /** A header line only appends: it keeps every group but the last, keeps
      the last group's count and adds at most one component to it, and
      opens at most one new group, with no components. It leaves the scan
      undetermined only for a line too short to hold a second word or a
      `property` line before any group. */
  lemma HeaderStepExtends(table: map<string, Cmp>, stoi: string -> int, line: string, format: seq<Element>)
    ensures var r := HeaderStep(table, stoi, line, format);
      r.Continue? ==>
        |format| <= |r.next| <= |format| + 1 &&
        (forall g :: 0 <= g < |format| - 1 ==> r.next[g] == format[g]) &&
        (format != [] ==>
          r.next[|format| - 1].count == format[|format| - 1].count &&
          format[|format| - 1].cmps <= r.next[|format| - 1].cmps &&
          |r.next[|format| - 1].cmps| <= |format[|format| - 1].cmps| + 1) &&
        (|r.next| > |format| ==> r.next[|format|].cmps == [])
    ensures HeaderStep(table, stoi, line, format).BadLine? ==> |line| < 9 || format == []
  {
  }

  /** An `element` line opens a new, empty group whose count is `stoi` of
      its second token. */
  lemma ElementLineStep(table: map<string, Cmp>, stoi: string -> int, format: seq<Element>, toks: seq<string>)
    requires AllTokens(toks)
    ensures HeaderStep(table, stoi, KeywordLine("element", toks), format)
         == Continue(format + [Element(stoi(Field(toks, 1, "")), [])])
  {
    assert KeywordLine("element", toks)[..7] == "element";
    KeywordLineTokens("element", toks);
  }

  /** A `property` line appends the table's component for its name (its
      second token) to the last group, and changes nothing when the table
      does not know the name. */
  lemma PropertyLineStep(table: map<string, Cmp>, stoi: string -> int, format: seq<Element>, toks: seq<string>)
    requires AllTokens(toks) && format != []
    ensures var name := Field(toks, 1, "");
      HeaderStep(table, stoi, KeywordLine("property", toks), format)
      == Continue(if name in table then AddCmp(format, table[name]) else format)
  {
    var line := KeywordLine("property", toks);
    assert line[0] == 'p' && line[..8] == "property";
    KeywordLineTokens("property", toks);
  }

  /** `end_header` ends the scan. */
  lemma EndHeaderStep(table: map<string, Cmp>, stoi: string -> int, format: seq<Element>)
    ensures HeaderStep(table, stoi, "end_header", format) == EndHeader
  {
    assert "end_header"[0] == 'e' && "end_header"[1] == 'n';
  }

  /** Any other line is skipped. */
  lemma OtherLineStep(table: map<string, Cmp>, stoi: string -> int, line: string, format: seq<Element>)
    requires !StartsWith(line, "element") && !StartsWith(line, "property") && !StartsWith(line, "end_header")
    ensures HeaderStep(table, stoi, line, format) == Continue(format)
  {
  }

  /** A line that continues the scan hands its groups to the next line. */
  lemma ScanContinues(table: map<string, Cmp>, stoi: string -> int, lines: seq<string>, i: nat,
                      format: seq<Element>, next: seq<Element>)
    requires i < |lines| && HeaderStep(table, stoi, lines[i], format) == Continue(next)
    ensures HeaderFrom(table, stoi, lines, i, format) == HeaderFrom(table, stoi, lines, i + 1, next)
  {
  }

  /** The components the table gives for the property names `names`, in
      order, with the names it does not know left out. */
  function Recognised(table: map<string, Cmp>, names: seq<string>): (r: seq<Cmp>)
    ensures |r| <= |names|
  {
    if names == [] then []
    else (if names[0] in table then [table[names[0]]] else []) + Recognised(table, names[1..])
  }

  /** The groups `format` with `cs` appended to the last group's components. */
  function WithCmps(format: seq<Element>, cs: seq<Cmp>): (r: seq<Element>)
    requires format != []
    ensures |r| == |format|
  {
    var last := format[|format| - 1];
    format[..|format| - 1] + [Element(last.count, last.cmps + cs)]
  }

  lemma WithCmpsFacts(format: seq<Element>, c: Cmp, a: seq<Cmp>, b: seq<Cmp>)
    requires format != []
    ensures WithCmps(format, []) == format
    ensures AddCmp(format, c) == WithCmps(format, [c])
    ensures WithCmps(WithCmps(format, a), b) == WithCmps(format, a + b)
  {
    var last := format[|format| - 1];
    assert last.cmps + [] == last.cmps;
    assert format[..|format| - 1] + [last] == format;
    var fa := WithCmps(format, a);
    assert fa[..|fa| - 1] == format[..|format| - 1];
    assert last.cmps + a + b == last.cmps + (a + b);
  }

  /** The header line declaring the `float` property `name`. */
  function PropertyLine(name: string): (r: string)
  {
    KeywordLine("property", ["float", name])
  }

  /** One `property float <name>` line per name. */
  function PropertyLines(names: seq<string>): (r: seq<string>)
    ensures |r| == |names|
  {
    seq(|names|, k requires 0 <= k < |names| => PropertyLine(names[k]))
  }

  /** From line `i` on, `lines` holds the property lines of `names`. */
  predicate PropertyRun(lines: seq<string>, i: nat, names: seq<string>)
  {
    i + |names| <= |lines| && lines[i..i + |names|] == PropertyLines(names)
  }

  /** A run of property lines is its first line followed by the run of the
      remaining names. */
  lemma PropertyRunRest(lines: seq<string>, i: nat, names: seq<string>)
    requires names != [] && AllTokens(names) && PropertyRun(lines, i, names)
    ensures lines[i] == PropertyLine(names[0])
    ensures AllTokens(names[1..]) && PropertyRun(lines, i + 1, names[1..])
  {
    var n := |names|;
    assert lines[i] == lines[i..i + n][0] == PropertyLines(names)[0];
    forall k | 0 <= k < n - 1 ensures lines[i + 1..i + n][k] == PropertyLines(names[1..])[k] {
      assert lines[i + 1..i + n][k] == lines[i..i + n][k + 1] == PropertyLines(names)[k + 1];
    }
    assert lines[i + 1..i + 1 + |names[1..]|] == PropertyLines(names[1..]);
    forall k | 0 <= k < |names[1..]| ensures IsToken(names[1..][k]) {
      assert names[1..][k] == names[k + 1];
    }
  }

  /** The groups after a `property` line for `name`. */
  function AfterProperty(table: map<string, Cmp>, format: seq<Element>, name: string): (r: seq<Element>)
    requires format != []
    ensures r != []
  {
    if name in table then AddCmp(format, table[name]) else format
  }

  /** Appending the first name's component, then the rest's, appends the
      components of all the names. */
  lemma RecognisedFirst(table: map<string, Cmp>, format: seq<Element>, names: seq<string>)
    requires names != [] && format != []
    ensures WithCmps(AfterProperty(table, format, names[0]), Recognised(table, names[1..]))
         == WithCmps(format, Recognised(table, names))
  {
    var first := if names[0] in table then [table[names[0]]] else [];
    WithCmpsFacts(format, if names[0] in table then table[names[0]] else PX, first, Recognised(table, names[1..]));
  }

  /** The scan over the first line of a run of property lines adds the
      table's component for the first name, if any, to the last group. */
  lemma PropertyLineScan(table: map<string, Cmp>, stoi: string -> int, lines: seq<string>, i: nat,
                         format: seq<Element>, names: seq<string>)
    requires names != [] && AllTokens(names) && PropertyRun(lines, i, names) && format != []
    ensures HeaderFrom(table, stoi, lines, i, format)
         == HeaderFrom(table, stoi, lines, i + 1, AfterProperty(table, format, names[0]))
  {
    var name := names[0];
    PropertyRunRest(lines, i, names);
    HeaderWords();
    assert AllTokens(["float", name]);
    PropertyLineStep(table, stoi, format, ["float", name]);
    ScanContinues(table, stoi, lines, i, format, AfterProperty(table, format, name));
  }

  /** A run of `property` lines appends to the last group, in header order,
      the components of the names the table knows. */
  lemma {:induction false} PropertyLinesStep(table: map<string, Cmp>, stoi: string -> int, lines: seq<string>,
                                             i: nat, format: seq<Element>, names: seq<string>)
    requires AllTokens(names) && format != [] && PropertyRun(lines, i, names)
    ensures i + |names| <= |lines|
    ensures HeaderFrom(table, stoi, lines, i, format)
         == HeaderFrom(table, stoi, lines, i + |names|, WithCmps(format, Recognised(table, names)))
    decreases |names|
  {
    if names == [] {
      WithCmpsFacts(format, PX, [], []);
    } else {
      var next := AfterProperty(table, format, names[0]);
      PropertyRunRest(lines, i, names);
      PropertyLineScan(table, stoi, lines, i, format, names);
      RecognisedFirst(table, format, names);
      PropertyLinesStep(table, stoi, lines, i + 1, next, names[1..]);
      assert i + 1 + |names[1..]| == i + |names|;
    }
  }

  /** A header with the usual `ply` and `format` lines, a vertex group with
      the `float` properties `names`, and a face group (whose properties the
      loader does not use). */
  function TwoGroupHeader(vertexCount: string, names: seq<string>, faceCount: string): (r: seq<string>)
    ensures |r| == |names| + 5
  {
    ["ply", "format ascii 1.0", KeywordLine("element", ["vertex", vertexCount])]
      + PropertyLines(names)
      + [KeywordLine("element", ["face", faceCount]), "end_header"]
  }

  /** The lines before the vertex group's properties: the scan skips `ply`
      and `format` and opens the vertex group. */
  lemma HeaderOpening(table: map<string, Cmp>, stoi: string -> int, lines: seq<string>, vertexCount: string)
    requires 3 <= |lines| && IsToken(vertexCount)
    requires lines[0] == "ply" && lines[1] == "format ascii 1.0"
    requires lines[2] == KeywordLine("element", ["vertex", vertexCount])
    ensures HeaderFrom(table, stoi, lines, 0, []) == HeaderFrom(table, stoi, lines, 3, [Element(stoi(vertexCount), [])])
  {
    OtherLineStep(table, stoi, lines[0], []);
    ScanContinues(table, stoi, lines, 0, [], []);
    assert lines[1][0] == 'f';
    OtherLineStep(table, stoi, lines[1], []);
    ScanContinues(table, stoi, lines, 1, [], []);
    HeaderWords();
    ElementLineStep(table, stoi, [], ["vertex", vertexCount]);
    assert [] + [Element(stoi(vertexCount), [])] == [Element(stoi(vertexCount), [])];
    ScanContinues(table, stoi, lines, 2, [], [Element(stoi(vertexCount), [])]);
  }

  /** The lines after the vertex group's properties: the scan opens the
      face group and stops. */
  lemma HeaderClosing(table: map<string, Cmp>, stoi: string -> int, lines: seq<string>, i: nat,
                      format: seq<Element>, faceCount: string)
    requires i + 2 <= |lines| && IsToken(faceCount)
    requires lines[i] == KeywordLine("element", ["face", faceCount])
    requires lines[i + 1] == "end_header"
    ensures HeaderFrom(table, stoi, lines, i, format) == Header(format + [Element(stoi(faceCount), [])], i + 2)
  {
    HeaderWords();
    var next := format + [Element(stoi(faceCount), [])];
    ElementLineStep(table, stoi, format, ["face", faceCount]);
    ScanContinues(table, stoi, lines, i, format, next);
    EndHeaderStep(table, stoi, next);
  }

  /** Where each line of such a header stands, in a file that continues
      with `body`. */
  lemma TwoGroupHeaderLines(vertexCount: string, names: seq<string>, faceCount: string, body: seq<string>)
    ensures var lines := TwoGroupHeader(vertexCount, names, faceCount) + body;
      var n := |names|;
      n + 5 <= |lines| &&
      lines[0] == "ply" && lines[1] == "format ascii 1.0" &&
      lines[2] == KeywordLine("element", ["vertex", vertexCount]) &&
      PropertyRun(lines, 3, names) &&
      lines[3 + n] == KeywordLine("element", ["face", faceCount]) && lines[4 + n] == "end_header"
  {
    var head := ["ply", "format ascii 1.0", KeywordLine("element", ["vertex", vertexCount])];
    var props := PropertyLines(names);
    var tail := [KeywordLine("element", ["face", faceCount]), "end_header"];
    var lines := TwoGroupHeader(vertexCount, names, faceCount) + body;
    var n := |names|;
    var rest := props + (tail + body);
    assert lines == head + rest;
    assert lines[3..] == rest;
    assert rest[..n] == props;
    assert lines[3..3 + n] == props;
    assert rest[n..] == tail + body;
    assert lines[3 + n] == rest[n] && lines[4 + n] == rest[n + 1];
  }

  /** The scan of such a header yields the vertex group with the table's
      components for its property names, in order, and an empty face group;
      the body starts right after `end_header`. */
  lemma TwoGroupHeaderParse(table: map<string, Cmp>, stoi: string -> int, vertexCount: string,
                            names: seq<string>, faceCount: string, body: seq<string>)
    requires IsToken(vertexCount) && IsToken(faceCount) && AllTokens(names)
    ensures ParseHeader(table, stoi, TwoGroupHeader(vertexCount, names, faceCount) + body)
         == Header([Element(stoi(vertexCount), Recognised(table, names)), Element(stoi(faceCount), [])], |names| + 5)
  {
    var lines := TwoGroupHeader(vertexCount, names, faceCount) + body;
    var n := |names|;
    TwoGroupHeaderLines(vertexCount, names, faceCount, body);
    HeaderOpening(table, stoi, lines, vertexCount);
    var f0 := [Element(stoi(vertexCount), [])];
    PropertyLinesStep(table, stoi, lines, 3, f0, names);
    var f1 := WithCmps(f0, Recognised(table, names));
    assert f1 == [Element(stoi(vertexCount), Recognised(table, names))] by {
      assert f0[..0] == [];
      assert [] + Recognised(table, names) == Recognised(table, names);
    }
    HeaderClosing(table, stoi, lines, 3 + n, f1, faceCount);
  }

  /** A header declaring a negative vertex count makes the loader throw
      `std::length_error`, whatever the rest of the file holds. */
  lemma NegativeVertexCountThrows(table: map<string, Cmp>, stoi: string -> int, body: seq<string>)
    requires stoi("-1") == -1
    ensures var lines := TwoGroupHeader("-1", [], "0") + body;
      ParseHeader(table, stoi, lines).Header? && Load(table, stoi, lines) == LengthError
  {
    assert IsToken("-1") by { assert "-1"[0] == '-' && "-1"[1] == '1'; }
    assert IsToken("0") by { assert "0"[0] == '0'; }
    TwoGroupHeaderParse(table, stoi, "-1", [], "0", body);
  }

  /** A file with such a header declaring one vertex and no face, and one
      body line, loads as the one vertex that line fills with the
      components the header scan recognised. */
  lemma OneVertexFile(table: map<string, Cmp>, stoi: string -> int, names: seq<string>, line: string)
    requires AllTokens(names) && stoi("1") == 1 && stoi("0") == 0
    ensures var lines := TwoGroupHeader("1", names, "0") + [line];
      ParseHeader(table, stoi, lines).Header? && Load(table, stoi, lines).Loaded? &&
      Load(table, stoi, lines).value
        == Geometry([ToVertex(VertexFill(Recognised(table, names), Tokens(line), "").0)], [])
  {
    var lines := TwoGroupHeader("1", names, "0") + [line];
    var n := |names|;
    assert IsToken("1") by { assert "1"[0] == '1'; }
    assert IsToken("0") by { assert "0"[0] == '0'; }
    TwoGroupHeaderParse(table, stoi, "1", names, "0", [line]);
    var f := [Element(1, Recognised(table, names)), Element(0, [])];
    LoadShape(stoi, lines, f, n + 5);
    assert lines[n + 5] == line;
    assert VerticesUpTo(f[0].cmps, lines, n + 5, 1).0
        == [ToVertex(VertexFill(Recognised(table, names), Tokens(line), "").0)];
  }

  /** A vertex group declaring `u` then `v` reads both coordinates from its
      line with the intended table. */
  lemma TextureCoordinates(stoi: string -> int, t0: string, t1: string)
    requires IsToken(t0) && IsToken(t1)
    requires stoi("1") == 1 && stoi("0") == 0
    ensures var lines := TwoGroupHeader("1", ["u", "v"], "0") + [Join([t0, t1])];
      ParseHeader(IntendedMap, stoi, lines).Header? && Load(IntendedMap, stoi, lines).Loaded? &&
      |Load(IntendedMap, stoi, lines).value.vertices| == 1 &&
      Load(IntendedMap, stoi, lines).value.vertices[0].uv == Vec2(Stof(t0), Stof(t1))
  {
    assert AllTokens(["u", "v"]) by { assert "u"[0] == 'u' && "v"[0] == 'v'; }
    OneVertexFile(IntendedMap, stoi, ["u", "v"], Join([t0, t1]));
    IntendedTableReadsV();
    assert Recognised(IntendedMap, ["v"]) == [V] by { assert ["v"][1..] == []; }
    assert Recognised(IntendedMap, ["u", "v"]) == [U, V] by { assert ["u", "v"][1..] == ["v"]; }
    TwoTokens(t0, t1);
    VertexFillTaken([U, V], [t0, t1], "", 0);
    VertexFillTaken([U, V], [t0, t1], "", 1);
  }

  /** With the table as written, the same file loads with the `v` property
      dropped: `uv[1]` stays 0.5. */
  lemma TextureCoordinatesAsWritten(stoi: string -> int, t0: string, t1: string)
    requires IsToken(t0) && IsToken(t1)
    requires stoi("1") == 1 && stoi("0") == 0
    ensures var lines := TwoGroupHeader("1", ["u", "v"], "0") + [Join([t0, t1])];
      ParseHeader(SourceMap, stoi, lines).Header? && Load(SourceMap, stoi, lines).Loaded? &&
      |Load(SourceMap, stoi, lines).value.vertices| == 1 &&
      Load(SourceMap, stoi, lines).value.vertices[0].uv == Vec2(Stof(t0), Half)
  {
    assert AllTokens(["u", "v"]) by { assert "u"[0] == 'u' && "v"[0] == 'v'; }
    OneVertexFile(SourceMap, stoi, ["u", "v"], Join([t0, t1]));
    SourceTableSkipsV();
    assert Recognised(SourceMap, ["v"]) == [] by { assert ["v"][1..] == []; }
    assert Recognised(SourceMap, ["u", "v"]) == [U] by { assert ["u", "v"][1..] == ["v"]; }
    TwoTokens(t0, t1);
    VertexFillTaken([U], [t0, t1], "", 0);
    VertexFillUntouched([U], [t0, t1], "", V);
  }

  /** The table as written knows `x` and `y` but not `weight`. */
  lemma SourceRecognisesXY()
    ensures Recognised(SourceMap, ["x", "weight", "y"]) == [PX, PY]
  {
    var names := ["x", "weight", "y"];
    assert SourceTable[0] == ("x", PX) && FirstKey(SourceTable, 0);
    MapKeepsFirst(SourceTable, 0);
    assert SourceTable[1] == ("y", PY) && FirstKey(SourceTable, 1);
    MapKeepsFirst(SourceTable, 1);
    assert forall i :: 0 <= i < |SourceTable| ==> SourceTable[i].0 != "weight";
    MapLacks(SourceTable, "weight");
    assert Recognised(SourceMap, ["y"]) == [PY] by { assert ["y"][1..] == []; }
    assert Recognised(SourceMap, ["weight", "y"]) == [PY] by { assert ["weight", "y"][1..] == ["y"]; }
    assert names[1..] == ["weight", "y"];
  }

  /** An unknown property does not take a token: the scan of a header whose
      vertex group has properties `x`, `weight`, `y` keeps `[PX, PY]`, and
      the vertex line `a b c` loads as x = a and y = b, while z stays 0.5. */
  lemma UnknownPropertyShiftsTokens(stoi: string -> int, a: string, b: string, c: string)
    requires IsToken(a) && IsToken(b) && IsToken(c)
    requires stoi("1") == 1 && stoi("0") == 0
    ensures var lines := TwoGroupHeader("1", ["x", "weight", "y"], "0") + [Join([a, b, c])];
      ParseHeader(SourceMap, stoi, lines) == Header([Element(1, [PX, PY]), Element(0, [])], 8) &&
      Load(SourceMap, stoi, lines).Loaded? &&
      |Load(SourceMap, stoi, lines).value.vertices| == 1 &&
      Load(SourceMap, stoi, lines).value.vertices[0].pos == Vec3(Stof(a), Stof(b), Half)
  {
    var names := ["x", "weight", "y"];
    assert AllTokens(names) by { assert "x"[0] == 'x' && "weight"[0] == 'w' && "y"[0] == 'y'; }
    SourceRecognisesXY();
    assert IsToken("1") by { assert "1"[0] == '1'; }
    assert IsToken("0") by { assert "0"[0] == '0'; }
    TwoGroupHeaderParse(SourceMap, stoi, "1", names, "0", [Join([a, b, c])]);
    OneVertexFile(SourceMap, stoi, names, Join([a, b, c]));
    ThreeTokens(a, b, c);
    VertexFillTaken([PX, PY], [a, b, c], "", 0);
    VertexFillTaken([PX, PY], [a, b, c], "", 1);
    VertexFillUntouched([PX, PY], [a, b, c], "", PZ);
  }

  /** A vertex line with fewer tokens than recognised properties reuses the
      last string extracted for the rest: a blank line repeats the previous
      line's last token in every component, and a one-token line repeats
      its own token. */
  lemma ShortVertexLineReusesItem(a: string, b: string)
    requires IsToken(a) && IsToken(b)
    ensures var lines := [Join([a, b]), "", Join([a])];
      VerticesUpTo([PX, PY], lines, 0, 3).0[1].pos == Vec3(Stof(b), Stof(b), Half) &&
      VerticesUpTo([PX, PY], lines, 0, 3).0[2].pos == Vec3(Stof(a), Stof(a), Half)
  {
    TwoTokens(a, b);
    TokensOfJoin([a]);
    var lines := [Join([a, b]), "", Join([a])];
    VerticesAt([PX, PY], lines, 0, 3, 1);
    VerticesAt([PX, PY], lines, 0, 3, 2);
    assert VerticesUpTo([PX, PY], lines, 0, 1).1 == b;
    assert Tokens(lines[1]) == [];
    VertexFillUntouched([PX, PY], [], b, PZ);
    assert VerticesUpTo([PX, PY], lines, 0, 2).1 == b;
    VertexFillTaken([PX, PY], [a], b, 0);
    VertexFillUntouched([PX, PY], [a], b, PZ);
  }
}
