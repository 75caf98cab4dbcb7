/**
  `OBJLoader::load` of src/obj_loader.cpp, on the lines of the file rather
  than the file itself. The first loop sorts each line into one of four
  lists: `v` positions, `vt` texture coordinates, `vn` normals and `f`
  faces, three `p/t/n` corners each with the 1-based indices made 0-based.
  An empty line throws (`line.at(0)`), and so does a corner piece `stoi`
  cannot read; lines starting with '#' and other commands are skipped. The
  second loop emits three vertices per face, looked up without bounds
  checks. Reading a `float` from the line (`iss >> x`) is the parameter
  `readFloat`: after the whitespace is skipped it reads the longest prefix
  that forms a number, and the next number is read from what follows, so
  numbers need not be separated by whitespace.
 */
module ObjLoader {
  import opened Vectors
  import opened Colors
  import opened Vertices
  import opened ObjText

  /** The exception `load` lets escape. */
  datatype LoadError = EmptyLine | BadIndex(reason: Converted)

  datatype Result<T> = Ok(value: T) | Failure(error: LoadError)

  /** One face corner: indices into the three lists, 0-based. */
  datatype Indices = Indices(vertex: int, uv: int, normal: int)

  datatype Face = Face(a: Indices, b: Indices, c: Indices)

  /** `rawVertices`, `rawUvs`, `rawNormals` and `faces`. */
  datatype Raw = Raw(vertices: seq<Vector3>, uvs: seq<Vector2>, normals: seq<Vector3>, faces: seq<Face>)

  const NoRaw := Raw([], [], [], [])

  function Corner(f: Face, i: nat): Indices
    requires i < 3
  {
    if i == 0 then f.a else if i == 1 then f.b else f.c
  }

  /** `std::stoi(piece) - 1`. */
  function Index(piece: string): Result<int>
  {
    var c := Stoi(piece);
    if c.Converted? then Ok(c.value - 1) else Failure(BadIndex(c))
  }

  /** A corner word `p/t/n`: its three pieces converted in order, the first
      failure winning. */
  function CornerOf(word: string): Result<Indices>
  {
    CornerFrom(Index(Field(word, 0)), Index(Field(word, 1)), Index(Field(word, 2)))
  }

  function CornerFrom(p: Result<int>, t: Result<int>, n: Result<int>): Result<Indices>
  {
    if p.Failure? then Failure(p.error)
    else if t.Failure? then Failure(t.error)
    else if n.Failure? then Failure(n.error)
    else Ok(Indices(p.value, t.value, n.value))
  }

  /** Corner `i` of an `f` line with words `ts`, from the word after the
      command. */
  function CornerAt(ts: seq<string>, i: nat): Result<Indices>
  {
    CornerOf(TokenAt(ts, i + 1))
  }

  /** The face of an `f` line with words `ts`: its three corners in order,
      the first failure winning. */
  function FaceOf(ts: seq<string>): Result<Face>
  {
    FaceFrom(CornerAt(ts, 0), CornerAt(ts, 1), CornerAt(ts, 2))
  }

  function FaceFrom(a: Result<Indices>, b: Result<Indices>, c: Result<Indices>): Result<Face>
  {
    if a.Failure? then Failure(a.error)
    else if b.Failure? then Failure(b.error)
    else if c.Failure? then Failure(c.error)
    else Ok(Face(a.value, b.value, c.value))
  }

  /** The command word of a line, empty for a blank one. */
  function Command(line: string): string
  {
    TokenAt(Tokens(line), 0)
  }

  /** `iss >> x` for a `float`, once the whitespace before it is skipped:
      the value of the number at the start of the text, and the text after
      it. */
  type FloatReader = string -> (real, string)

  /** What `iss >> command` leaves in the stream: the text after the
      command word. */
  function AfterCommand(line: string): string
  {
    var s := SkipSpace(line);
    s[|Word(s)|..]
  }

  /** The command is the first word of the line, and the words after it are
      the rest of the line's words: `iss >> command` and the extractions
      that follow it meet the same words as `Tokens`. */
  lemma {:induction false} CommandThenRest(line: string)
    ensures Command(line) == Word(SkipSpace(line))
    ensures Tokens(AfterCommand(line)) == if |Tokens(line)| == 0 then [] else Tokens(line)[1..]
    decreases |line|
  {
    if |line| > 0 && IsSpace(line[0]) {
      CommandThenRest(line[1..]);
    }
  }

  /** `iss >> x >> y >> z` after the command of a `v` or `vn` line. */
  function Point3(line: string, readFloat: FloatReader): Vector3
  {
    var x := readFloat(SkipSpace(AfterCommand(line)));
    var y := readFloat(SkipSpace(x.1));
    var z := readFloat(SkipSpace(y.1));
    Vector3(x.0, y.0, z.0)
  }

  /** `iss >> u >> v` after the command of a `vt` line. */
  function Point2(line: string, readFloat: FloatReader): Vector2
  {
    var u := readFloat(SkipSpace(AfterCommand(line)));
    var v := readFloat(SkipSpace(u.1));
    Vector2(u.0, v.0)
  }

  /** A reader for integral numerals `[+-]digits`: what `>>` reads into a
      `float` when neither a '.' nor an exponent follows, and the text left
      after it. */
  function IntegralReader(s: string): (r: (real, string))
    ensures |r.1| <= |s|
  {
    var signed := |s| > 0 && (s[0] == '-' || s[0] == '+');
    var body := if signed then s[1..] else s;
    DigitPrefixIsDigits(body);
    var ds := DigitPrefix(body);
    var v := DigitsValue(ds) as real;
    (if signed && s[0] == '-' then -v else v, body[|ds|..])
  }

  /** Numbers need no whitespace between them: each read starts where the
      previous one stopped, so `v 1-2 3` is the vertex (1, -2, 3). */
  lemma ReadsWhereThePreviousStopped()
    ensures Point3("v 1-2 3", IntegralReader) == Vector3(1.0, -2.0, 3.0)
  {
    var line := "v 1-2 3";
    assert Word(line[1..]) == [];
    assert Word(line) == "v";
    assert SkipSpace(line) == line;
    assert AfterCommand(line) == " 1-2 3";
    assert SkipSpace(" 1-2 3") == "1-2 3";
    assert DigitPrefix("-2 3") == [];
    assert DigitPrefix("2 3") == "2" && DigitPrefix(" 3") == [];
    assert DigitPrefix("1-2 3") == "1";
    assert DigitPrefix("3") == "3" && DigitPrefix("") == [];
    assert DigitsValue("1") == 1 && DigitsValue("2") == 2 && DigitsValue("3") == 3;
    assert IntegralReader("1-2 3") == (1.0, "-2 3");
    assert SkipSpace("-2 3") == "-2 3";
    assert IntegralReader("-2 3") == (-2.0, " 3");
    assert SkipSpace(" 3") == "3";
    assert IntegralReader("3") == (3.0, "");
  }

  /** One turn of the line loop. */
  function ParseLine(raw: Raw, line: string, readFloat: FloatReader): Result<Raw>
  {
    if |line| == 0 then Failure(EmptyLine)
    else if line[0] == '#' then Ok(raw)
    else
      var ts := Tokens(line);
      var command := TokenAt(ts, 0);
      if command == "v" then Ok(raw.(vertices := raw.vertices + [Point3(line, readFloat)]))
      else if command == "vt" then Ok(raw.(uvs := raw.uvs + [Point2(line, readFloat)]))
      else if command == "vn" then Ok(raw.(normals := raw.normals + [Point3(line, readFloat)]))
      else if command == "f" then
        var f := FaceOf(ts);
        if f.Failure? then Failure(f.error) else Ok(raw.(faces := raw.faces + [f.value]))
      else Ok(raw)
  }

  /** The four lists after the lines, or the first exception. */
  function Parse(lines: seq<string>, readFloat: FloatReader): Result<Raw>
  {
    if |lines| == 0 then Ok(NoRaw)
    else
      var prev := Parse(lines[..|lines| - 1], readFloat);
      if prev.Failure? then prev else ParseLine(prev.value, lines[|lines| - 1], readFloat)
  }

  predicate CornerInRange(raw: Raw, ix: Indices)
  {
    0 <= ix.vertex < |raw.vertices| && 0 <= ix.uv < |raw.uvs| && 0 <= ix.normal < |raw.normals|
  }

  predicate FaceInRange(raw: Raw, f: Face)
  {
    CornerInRange(raw, f.a) && CornerInRange(raw, f.b) && CornerInRange(raw, f.c)
  }

  /** Every face of `raw` indexes within the lists. */
  predicate WellIndexed(raw: Raw)
  {
    forall j :: 0 <= j < |raw.faces| ==> FaceInRange(raw, raw.faces[j])
  }

  /** The output vertex of a corner: the position with w = 1, the texture
      coordinate, the normal, and colour (1, 1, 1, 1). */
  function CornerVertex(raw: Raw, ix: Indices): Vertex
    requires CornerInRange(raw, ix)
  {
    Vertex(Vector4(raw.vertices[ix.vertex], 1.0), raw.uvs[ix.uv], raw.normals[ix.normal], Color(1.0, 1.0, 1.0, 1.0))
  }

  function FaceVertices(raw: Raw, f: Face): seq<Vertex>
    requires FaceInRange(raw, f)
  {
    [CornerVertex(raw, f.a), CornerVertex(raw, f.b), CornerVertex(raw, f.c)]
  }

  /** Vertex `i` of a face is that of its corner `i`. */
  lemma FaceVertexAt(raw: Raw, f: Face, i: nat)
    requires FaceInRange(raw, f) && i < 3
    ensures CornerInRange(raw, Corner(f, i))
    ensures FaceVertices(raw, f)[i] == CornerVertex(raw, Corner(f, i))
  {
  }

  /** The vertices of the faces `fs`, face after face. */
  function ExpandFaces(raw: Raw, fs: seq<Face>): seq<Vertex>
    requires forall j :: 0 <= j < |fs| ==> FaceInRange(raw, fs[j])
  {
    if |fs| == 0 then [] else ExpandFaces(raw, fs[..|fs| - 1]) + FaceVertices(raw, fs[|fs| - 1])
  }

  /** What the source needs to avoid reading outside a list: a file that
      parses has faces within its lists. */
  predicate Loadable(lines: seq<string>, readFloat: FloatReader)
  {
    var p := Parse(lines, readFloat);
    p.Ok? ==> WellIndexed(p.value)
  }

  /** The vertex buffer `load` returns, or the exception it throws. */
  function Loaded(lines: seq<string>, readFloat: FloatReader): Result<seq<Vertex>>
    requires Loadable(lines, readFloat)
  {
    var p := Parse(lines, readFloat);
    if p.Failure? then Failure(p.error) else ExpandOk(p.value)
  }

  function ExpandOk(raw: Raw): Result<seq<Vertex>>
    requires WellIndexed(raw)
  {
    Ok(ExpandFaces(raw, raw.faces))
  }

  // The loader

  /** One turn of the corner loop: the word is split on '/' and each
      piece goes through `stoi`, less one. */
  method ReadCorner(ts: seq<string>, i: nat) returns (r: Result<Indices>)
    ensures r == CornerAt(ts, i)
  {
    var word := TokenAt(ts, i + 1);
    var p, t, n := Field(word, 0), Field(word, 1), Field(word, 2);
    var vp := Stoi(p);
    if !vp.Converted? {
      return Failure(BadIndex(vp));
    }
    var vt := Stoi(t);
    if !vt.Converted? {
      return Failure(BadIndex(vt));
    }
    var vn := Stoi(n);
    if !vn.Converted? {
      return Failure(BadIndex(vn));
    }
    r := Ok(Indices(vp.value - 1, vt.value - 1, vn.value - 1));
  }

  /** The face of an `f` line: the loop over its three corner words. */
  method ReadFace(ts: seq<string>) returns (r: Result<Face>)
    ensures r == FaceOf(ts)
  {
    ghost var cs := [CornerAt(ts, 0), CornerAt(ts, 1), CornerAt(ts, 2)];
    var corners: seq<Indices> := [];
    for i := 0 to 3
      invariant |corners| == i
      invariant forall j :: 0 <= j < i ==> cs[j] == Ok(corners[j])
    {
      var c := ReadCorner(ts, i);
      assert c == cs[i];
      if c.Failure? {
        FirstFailingCorner(cs, i);
        return Failure(c.error);
      }
      corners := corners + [c.value];
    }
    r := Ok(Face(corners[0], corners[1], corners[2]));
  }

  /** The face fails with its first corner that fails. */
  lemma FirstFailingCorner(cs: seq<Result<Indices>>, i: nat)
    requires |cs| == 3 && i < 3 && cs[i].Failure?
    requires forall j :: 0 <= j < i ==> cs[j].Ok?
    ensures FaceFrom(cs[0], cs[1], cs[2]) == Failure(cs[i].error)
  {
    if i > 0 {
      assert cs[0].Ok?;
    }
    if i > 1 {
      assert cs[1].Ok?;
    }
  }

  /** The second loop: three vertices per face, in face order. */
  method Expand(raw: Raw) returns (vertices: seq<Vertex>)
    requires WellIndexed(raw)
    ensures vertices == ExpandFaces(raw, raw.faces)
  {
    vertices := [];
    for j := 0 to |raw.faces|
      invariant vertices == ExpandFaces(raw, raw.faces[..j])
    {
      var face := raw.faces[j];
      ghost var done := ExpandFaces(raw, raw.faces[..j]);
      ghost var three := FaceVertices(raw, face);
      for i := 0 to 3
        invariant vertices == done + three[..i]
      {
        var ix := Corner(face, i);
        var position := raw.vertices[ix.vertex];
        var uv := raw.uvs[ix.uv];
        var normal := raw.normals[ix.normal];
        FaceVertexAt(raw, face, i);
        assert three[..i + 1] == three[..i] + [three[i]];
        vertices := vertices + [Vertex(Vector4(position, 1.0), uv, normal, Color(1.0, 1.0, 1.0, 1.0))];
      }
      assert three[..3] == three;
      ExpandNext(raw, j);
    }
    assert raw.faces[..|raw.faces|] == raw.faces;
  }

  /** One more face adds its three vertices. */
  lemma ExpandNext(raw: Raw, j: nat)
    requires WellIndexed(raw) && j < |raw.faces|
    ensures ExpandFaces(raw, raw.faces[..j + 1]) == ExpandFaces(raw, raw.faces[..j]) + FaceVertices(raw, raw.faces[j])
  {
    assert raw.faces[..j + 1][..j] == raw.faces[..j];
  }

  /** `load(path)` on the lines of the file. */
  method Load(lines: seq<string>, readFloat: FloatReader) returns (r: Result<seq<Vertex>>)
    requires Loadable(lines, readFloat)
    ensures r == Loaded(lines, readFloat)
  {
    var rawVertices: seq<Vector3> := [];
    var rawUvs: seq<Vector2> := [];
    var rawNormals: seq<Vector3> := [];
    var faces: seq<Face> := [];
    var k := 0;
    while k < |lines|
      invariant 0 <= k <= |lines|
      invariant Parse(lines[..k], readFloat) == Ok(Raw(rawVertices, rawUvs, rawNormals, faces))
    {
      var line := lines[k];
      assert lines[..k + 1][..k] == lines[..k];
      ghost var before := Raw(rawVertices, rawUvs, rawNormals, faces);
      assert Parse(lines[..k + 1], readFloat) == ParseLine(before, line, readFloat);
      if |line| == 0 {
        FailureSticks(lines, k + 1, readFloat);
        return Failure(EmptyLine);
      }
      if line[0] == '#' {
        k := k + 1;
        continue;
      }
      var ts := Tokens(line);
      var command := TokenAt(ts, 0);
      var rest := AfterCommand(line);
      if command == "v" {
        var x := readFloat(SkipSpace(rest));
        var y := readFloat(SkipSpace(x.1));
        var z := readFloat(SkipSpace(y.1));
        assert Vector3(x.0, y.0, z.0) == Point3(line, readFloat);
        rawVertices := rawVertices + [Vector3(x.0, y.0, z.0)];
      } else if command == "vt" {
        var u := readFloat(SkipSpace(rest));
        var v := readFloat(SkipSpace(u.1));
        assert Vector2(u.0, v.0) == Point2(line, readFloat);
        rawUvs := rawUvs + [Vector2(u.0, v.0)];
      } else if command == "vn" {
        var x := readFloat(SkipSpace(rest));
        var y := readFloat(SkipSpace(x.1));
        var z := readFloat(SkipSpace(y.1));
        assert Vector3(x.0, y.0, z.0) == Point3(line, readFloat);
        rawNormals := rawNormals + [Vector3(x.0, y.0, z.0)];
      } else if command == "f" {
        var face := ReadFace(ts);
        if face.Failure? {
          FailureSticks(lines, k + 1, readFloat);
          return Failure(face.error);
        }
        faces := faces + [face.value];
      }
      k := k + 1;
    }
    assert lines[..|lines|] == lines;
    var vertices := Expand(Raw(rawVertices, rawUvs, rawNormals, faces));
    r := Ok(vertices);
  }

  /** An exception ends the loading: later lines do not matter. */
  lemma {:induction false} FailureSticks(lines: seq<string>, k: nat, readFloat: FloatReader)
    requires k <= |lines| && Parse(lines[..k], readFloat).Failure?
    ensures Parse(lines, readFloat) == Parse(lines[..k], readFloat)
    decreases |lines|
  {
    if k < |lines| {
      var init := lines[..|lines| - 1];
      assert init[..k] == lines[..k];
      FailureSticks(init, k, readFloat);
    } else {
      assert lines[..k] == lines;
    }
  }

  // What the loader promises

  /** The output has three vertices per face, face after face and corner
      after corner; each takes its position (with w = 1), texture coordinate
      and normal from the lists and is coloured (1, 1, 1, 1). */
  lemma {:induction false} ExpandLayout(raw: Raw, fs: seq<Face>)
    requires forall j :: 0 <= j < |fs| ==> FaceInRange(raw, fs[j])
    ensures |ExpandFaces(raw, fs)| == 3 * |fs|
    ensures forall j, i :: 0 <= j < |fs| && 0 <= i < 3 ==>
      var ix, v := Corner(fs[j], i), ExpandFaces(raw, fs)[3 * j + i];
      v.position == Vector4(raw.vertices[ix.vertex], 1.0) && v.uv == raw.uvs[ix.uv] &&
      v.normal == raw.normals[ix.normal] && v.color == White
  {
    if |fs| > 0 {
      var init := fs[..|fs| - 1];
      ExpandLayout(raw, init);
      var e := ExpandFaces(raw, fs);
      assert e == ExpandFaces(raw, init) + FaceVertices(raw, fs[|fs| - 1]);
      forall j, i | 0 <= j < |fs| && 0 <= i < 3
        ensures e[3 * j + i] == CornerVertex(raw, Corner(fs[j], i))
      {
        if j < |fs| - 1 {
          assert fs[j] == init[j];
        }
      }
    }
  }

  /** A line that goes into the `cmd` list. */
  predicate IsCommand(line: string, cmd: string)
  {
    |line| > 0 && line[0] != '#' && Command(line) == cmd
  }

  /** The lines of command `cmd`, in file order. */
  function WithCommand(lines: seq<string>, cmd: string): seq<string>
  {
    if |lines| == 0 then []
    else WithCommand(lines[..|lines| - 1], cmd) + (if IsCommand(lines[|lines| - 1], cmd) then [lines[|lines| - 1]] else [])
  }

  function Points3(ls: seq<string>, readFloat: FloatReader): seq<Vector3>
  {
    seq(|ls|, i requires 0 <= i < |ls| => Point3(ls[i], readFloat))
  }

  function Points2(ls: seq<string>, readFloat: FloatReader): seq<Vector2>
  {
    seq(|ls|, i requires 0 <= i < |ls| => Point2(ls[i], readFloat))
  }

  /** A line the source rejects: an empty one, or a face with a bad index. */
  predicate LineFails(line: string)
  {
    |line| == 0 || (IsCommand(line, "f") && FaceOf(Tokens(line)).Failure?)
  }

  function LineError(line: string): LoadError
    requires LineFails(line)
  {
    if |line| == 0 then EmptyLine else FaceOf(Tokens(line)).error
  }

  /** A line that changes nothing: a comment, or a command other than the
      four. */
  predicate Skipped(line: string)
  {
    |line| > 0 && (line[0] == '#' || Command(line) !in {"v", "vt", "vn", "f"})
  }

  /** Parsing goes through exactly when no line fails. */
  lemma {:induction false} ParseSucceeds(lines: seq<string>, readFloat: FloatReader)
    ensures Parse(lines, readFloat).Ok? <==> forall k :: 0 <= k < |lines| ==> !LineFails(lines[k])
  {
    if |lines| > 0 {
      var init := lines[..|lines| - 1];
      ParseSucceeds(init, readFloat);
      forall k | 0 <= k < |init| ensures init[k] == lines[k] { }
      var prev := Parse(init, readFloat);
      if prev.Ok? {
        ParseLineOk(prev.value, lines[|lines| - 1], readFloat);
      }
    }
  }

  /** One line fails exactly when it is an empty line or a bad face. */
  lemma ParseLineOk(raw: Raw, line: string, readFloat: FloatReader)
    ensures ParseLine(raw, line, readFloat).Ok? <==> !LineFails(line)
    ensures LineFails(line) ==> ParseLine(raw, line, readFloat) == Failure(LineError(line))
  {
  }

  /** The exception is the one of the first line that fails. */
  lemma ParseFailsAt(lines: seq<string>, k: nat, readFloat: FloatReader)
    requires k < |lines| && LineFails(lines[k])
    requires forall j :: 0 <= j < k ==> !LineFails(lines[j])
    ensures Parse(lines, readFloat) == Failure(LineError(lines[k]))
  {
    var pre := lines[..k];
    ParseSucceeds(pre, readFloat);
    var prev := Parse(pre, readFloat);
    assert lines[..k + 1][..k] == pre;
    ParseLineOk(prev.value, lines[k], readFloat);
    assert Parse(lines[..k + 1], readFloat) == Failure(LineError(lines[k]));
    FailureSticks(lines, k + 1, readFloat);
  }

  /** Comments and other commands leave the lists as they are. */
  lemma SkippedLine(lines: seq<string>, line: string, readFloat: FloatReader)
    requires Skipped(line)
    ensures Parse(lines + [line], readFloat) == Parse(lines, readFloat)
  {
    assert (lines + [line])[..|lines|] == lines;
  }

  /** Each list holds the values of the lines of its command, in file
      order; each face is the face of its `f` line. */
  lemma ParsedLists(lines: seq<string>, readFloat: FloatReader)
    requires Parse(lines, readFloat).Ok?
    ensures var raw := Parse(lines, readFloat).value;
      raw.vertices == Points3(WithCommand(lines, "v"), readFloat) &&
      raw.uvs == Points2(WithCommand(lines, "vt"), readFloat) &&
      raw.normals == Points3(WithCommand(lines, "vn"), readFloat) &&
      |raw.faces| == |WithCommand(lines, "f")| &&
      forall i :: 0 <= i < |raw.faces| ==> FaceOf(Tokens(WithCommand(lines, "f")[i])) == Ok(raw.faces[i])
  {
    ParsedPoints(lines, readFloat);
    ParsedFaces(lines, readFloat);
  }

  /** The three point lists hold the points of their lines, in file order. */
  lemma {:induction false} ParsedPoints(lines: seq<string>, readFloat: FloatReader)
    requires Parse(lines, readFloat).Ok?
    ensures var raw := Parse(lines, readFloat).value;
      raw.vertices == Points3(WithCommand(lines, "v"), readFloat) &&
      raw.uvs == Points2(WithCommand(lines, "vt"), readFloat) &&
      raw.normals == Points3(WithCommand(lines, "vn"), readFloat)
  {
    if |lines| > 0 {
      var init := lines[..|lines| - 1];
      var line := lines[|lines| - 1];
      ParsedPoints(init, readFloat);
      Points3Snoc(WithCommand(init, "v"), line, readFloat);
      Points2Snoc(WithCommand(init, "vt"), line, readFloat);
      Points3Snoc(WithCommand(init, "vn"), line, readFloat);
    }
  }

  /** The faces are those of the `f` lines, in file order. */
  lemma {:induction false} ParsedFaces(lines: seq<string>, readFloat: FloatReader)
    requires Parse(lines, readFloat).Ok?
    ensures FacesOfLines(WithCommand(lines, "f"), Parse(lines, readFloat).value.faces)
  {
    if |lines| > 0 {
      var init := lines[..|lines| - 1];
      var line := lines[|lines| - 1];
      ParsedFaces(init, readFloat);
      var raw := Parse(init, readFloat).value;
      assert Parse(lines, readFloat) == ParseLine(raw, line, readFloat);
      ParseLineFaces(raw, line, readFloat);
      if IsCommand(line, "f") {
        FacesOfLinesSnoc(WithCommand(init, "f"), raw.faces, line, FaceOf(Tokens(line)).value);
      }
    }
  }

  /** `faces` are the faces of the `f` lines `ls`, one each. */
  predicate FacesOfLines(ls: seq<string>, faces: seq<Face>)
  {
    |faces| == |ls| && forall i :: 0 <= i < |faces| ==> FaceOf(Tokens(ls[i])) == Ok(faces[i])
  }

  lemma FacesOfLinesSnoc(ls: seq<string>, faces: seq<Face>, l: string, f: Face)
    requires FacesOfLines(ls, faces) && FaceOf(Tokens(l)) == Ok(f)
    ensures FacesOfLines(ls + [l], faces + [f])
  {
    forall i | 0 <= i < |faces| + 1
      ensures FaceOf(Tokens((ls + [l])[i])) == Ok((faces + [f])[i])
    {
      if i < |faces| {
        assert (ls + [l])[i] == ls[i] && (faces + [f])[i] == faces[i];
      } else {
        assert (ls + [l])[i] == l && (faces + [f])[i] == f;
      }
    }
  }

  /** A line that parses adds a face exactly when it is an `f` line. */
  lemma ParseLineFaces(raw: Raw, line: string, readFloat: FloatReader)
    requires ParseLine(raw, line, readFloat).Ok?
    ensures IsCommand(line, "f") ==> FaceOf(Tokens(line)).Ok?
    ensures IsCommand(line, "f") ==>
      ParseLine(raw, line, readFloat).value.faces == raw.faces + [FaceOf(Tokens(line)).value]
    ensures !IsCommand(line, "f") ==> ParseLine(raw, line, readFloat).value.faces == raw.faces
  {
  }

  lemma Points3Snoc(ls: seq<string>, l: string, readFloat: FloatReader)
    ensures Points3(ls + [l], readFloat) == Points3(ls, readFloat) + [Point3(l, readFloat)]
  {
    assert forall i :: 0 <= i < |ls| ==> (ls + [l])[i] == ls[i];
  }

  lemma Points2Snoc(ls: seq<string>, l: string, readFloat: FloatReader)
    ensures Points2(ls + [l], readFloat) == Points2(ls, readFloat) + [Point2(l, readFloat)]
  {
    assert forall i :: 0 <= i < |ls| ==> (ls + [l])[i] == ls[i];
  }

  /** `load` throws exactly when a line fails, and otherwise returns three
      vertices per `f` line. */
  lemma LoadedShape(lines: seq<string>, readFloat: FloatReader)
    requires Loadable(lines, readFloat)
    ensures Loaded(lines, readFloat).Failure? <==> exists k :: 0 <= k < |lines| && LineFails(lines[k])
    ensures Loaded(lines, readFloat).Ok? ==> |Loaded(lines, readFloat).value| == 3 * |WithCommand(lines, "f")|
  {
    ParseSucceeds(lines, readFloat);
    var p := Parse(lines, readFloat);
    if p.Ok? {
      ParsedLists(lines, readFloat);
      ExpandLayout(p.value, p.value.faces);
    }
  }

  /** A corner written back in OBJ form: 1-based, `p/t/n`. */
  function CornerWord(ix: Indices): string
    requires 0 <= ix.vertex && 0 <= ix.uv && 0 <= ix.normal
  {
    Decimal(ix.vertex + 1) + "/" + Decimal(ix.uv + 1) + "/" + Decimal(ix.normal + 1)
  }

  /** A face written back as an `f` line. */
  function FaceLine(f: Face): string
    requires 0 <= f.a.vertex && 0 <= f.a.uv && 0 <= f.a.normal
    requires 0 <= f.b.vertex && 0 <= f.b.uv && 0 <= f.b.normal
    requires 0 <= f.c.vertex && 0 <= f.c.uv && 0 <= f.c.normal
  {
    Unwords(["f", CornerWord(f.a), CornerWord(f.b), CornerWord(f.c)])
  }

  predicate Writable(ix: Indices)
  {
    0 <= ix.vertex < IntMax && 0 <= ix.uv < IntMax && 0 <= ix.normal < IntMax
  }

  lemma DigitsArePlain(d: string)
    requires AllDigits(d)
    ensures NoSlash(d) && NoSpace(d)
  {
  }

  /** A 1-based index written in decimal reads back 0-based. */
  lemma IndexOfDecimal(n: nat)
    requires 1 <= n <= IntMax
    ensures Index(Decimal(n)) == Ok(n - 1)
  {
    StoiOfDecimal(n, "");
    assert Decimal(n) + "" == Decimal(n);
  }

  /** Reading a written corner gives back its indices. */
  lemma CornerRoundTrip(ix: Indices)
    requires Writable(ix)
    ensures CornerOf(CornerWord(ix)) == Ok(ix)
  {
    var w := CornerWord(ix);
    var p, t, n := Decimal(ix.vertex + 1), Decimal(ix.uv + 1), Decimal(ix.normal + 1);
    assert Pieces(w) == [p, t, n] by {
      DigitsArePlain(p);
      DigitsArePlain(t);
      DigitsArePlain(n);
      PiecesOfCorner(p, t, n);
    }
    assert Field(w, 0) == p && Field(w, 1) == t && Field(w, 2) == n;
    IndexOfDecimal(ix.vertex + 1);
    IndexOfDecimal(ix.uv + 1);
    IndexOfDecimal(ix.normal + 1);
  }

  /** A written corner is one word. */
  lemma CornerWordIsWord(ix: Indices)
    requires Writable(ix)
    ensures |CornerWord(ix)| > 0 && NoSpace(CornerWord(ix))
  {
    var p, t, n := Decimal(ix.vertex + 1), Decimal(ix.uv + 1), Decimal(ix.normal + 1);
    DigitsArePlain(p);
    DigitsArePlain(t);
    DigitsArePlain(n);
    assert CornerWord(ix) == p + "/" + t + "/" + n;
  }

  /** Reading a written `f` line gives back its face. */
  lemma FaceRoundTrip(f: Face)
    requires Writable(f.a) && Writable(f.b) && Writable(f.c)
    ensures IsCommand(FaceLine(f), "f")
    ensures FaceOf(Tokens(FaceLine(f))) == Ok(f)
  {
    var ws := ["f", CornerWord(f.a), CornerWord(f.b), CornerWord(f.c)];
    assert Tokens(FaceLine(f)) == ws by {
      CornerWordIsWord(f.a);
      CornerWordIsWord(f.b);
      CornerWordIsWord(f.c);
      assert NoSpace(ws[0]);
      TokensOfUnwords(ws);
    }
    assert FaceLine(f)[0] == 'f';
    assert CornerAt(ws, 0) == Ok(f.a) by {
      CornerRoundTrip(f.a);
    }
    assert CornerAt(ws, 1) == Ok(f.b) by {
      CornerRoundTrip(f.b);
    }
    assert CornerAt(ws, 2) == Ok(f.c) by {
      CornerRoundTrip(f.c);
    }
  }

  /** The index of an empty piece does not convert. */
  lemma EmptyIndex()
    ensures Index("") == Failure(BadIndex(InvalidArgument))
  {
    StoiNoDigits("");
  }

  /** A piece in decimal converts. */
  lemma DecimalIndex(p: nat)
    requires p <= IntMax
    ensures Index(Decimal(p)).Ok?
  {
    StoiOfDecimal(p, "");
    assert Decimal(p) + "" == Decimal(p);
  }

  /** A corner of position only (as in `f 1 2 3`, valid OBJ) makes `stoi`
      throw: the piece for the texture coordinate is empty. */
  lemma PositionOnlyCornerFails(p: nat)
    requires p <= IntMax
    ensures CornerOf(Decimal(p)) == Failure(BadIndex(InvalidArgument))
  {
    var dp := Decimal(p);
    assert Field(dp, 0) == dp && Field(dp, 1) == "" by {
      DigitsArePlain(dp);
      PiecesOfPiece(dp);
    }
    DecimalIndex(p);
    EmptyIndex();
  }

  /** A corner without texture coordinate (as in `f 1//1 2//2 3//3`, valid
      OBJ) makes `stoi` throw as well. */
  lemma NoUvCornerFails(p: nat, n: nat)
    requires p <= IntMax
    ensures CornerOf(Decimal(p) + "//" + Decimal(n)) == Failure(BadIndex(InvalidArgument))
  {
    var dp, dn := Decimal(p), Decimal(n);
    var w := dp + "//" + dn;
    assert Field(w, 0) == dp && Field(w, 1) == "" by {
      DigitsArePlain(dp);
      DigitsArePlain(dn);
      assert NoSlash("");
      PiecesOfCorner(dp, "", dn);
      assert dp + "/" + "" + "/" + dn == w;
    }
    DecimalIndex(p);
    EmptyIndex();
  }
}
