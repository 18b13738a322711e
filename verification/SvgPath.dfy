/**
 Path rewriting in the icon converter (tools/scripts/svg2vd.py), over the reals and without arcs:
 path data is split into commands with implicit repeats expanded, and every command is rewritten to
 its absolute form through an affine map.
 */
module SvgPath {
  import opened Common

  datatype Point = Point(x: real, y: real)

  /** x' = a*x + c*y + e, y' = b*x + d*y + f. */
  datatype Matrix = Matrix(a: real, b: real, c: real, d: real, e: real, f: real)

  datatype Letter = M | L | H | V | C | S | Q | T | Z

  datatype Cmd = Cmd(letter: Letter, relative: bool)

  /** A command letter and all the numbers up to the next letter. */
  datatype Chunk = Chunk(cmd: Cmd, nums: seq<real>)

  /** One command with exactly its own arguments. */
  datatype Token = Token(cmd: Cmd, args: seq<real>)

  const Origin := Point(0.0, 0.0)

  function MatMul(m: Matrix, n: Matrix): Matrix {
    Matrix(m.a * n.a + m.c * n.b, m.b * n.a + m.d * n.b,
           m.a * n.c + m.c * n.d, m.b * n.c + m.d * n.d,
           m.a * n.e + m.c * n.f + m.e, m.b * n.e + m.d * n.f + m.f)
  }

  function Row(r: real, s: real, t: real, x: real, y: real): real {
    r * x + s * y + t
  }

  function Map(m: Matrix, p: Point): Point {
    Point(Row(m.a, m.c, m.e, p.x, p.y), Row(m.b, m.d, m.f, p.x, p.y))
  }

  function ParamCount(letter: Letter): nat {
    match letter
    case M => 2 case L => 2 case H => 1 case V => 1 case C => 6 case S => 4 case Q => 4 case T => 2 case Z => 0
  }

  /** A repeated moveto means lineto for every pair after the first. */
  function Repeated(cmd: Cmd): Cmd {
    if cmd.letter.M? then cmd.(letter := L) else cmd
  }

  predicate WellFormed(tokens: seq<Token>) {
    forall i :: 0 <= i < |tokens| ==> |tokens[i].args| == ParamCount(tokens[i].cmd.letter)
  }

  function Expand(cmd: Cmd, nums: seq<real>): (tokens: seq<Token>)
    ensures WellFormed(tokens)
    decreases |nums|
  {
    var n := ParamCount(cmd.letter);
    if n == 0 then [Token(cmd, [])]
    else if |nums| < n then []
    else [Token(cmd, nums[..n])] + Expand(Repeated(cmd), nums[n..])
  }

  function ExpandAll(chunks: seq<Chunk>): (tokens: seq<Token>)
    ensures WellFormed(tokens)
    decreases |chunks|
  {
    if chunks == [] then [] else Expand(chunks[0].cmd, chunks[0].nums) + ExpandAll(chunks[1..])
  }

  method TokenizeChunk(chunk: Chunk) returns (tokens: seq<Token>)
    ensures tokens == Expand(chunk.cmd, chunk.nums)
  {
    var cmd, nums := chunk.cmd, chunk.nums;
    var n := ParamCount(cmd.letter);
    if n == 0 {
      return [Token(cmd, [])];
    }
    tokens := [];
    var i := 0;
    assert nums[0..] == nums && [] + Expand(cmd, nums) == Expand(cmd, nums);
    while i + n <= |nums|
      invariant 0 <= i <= |nums| && n == ParamCount(cmd.letter)
      invariant Expand(chunk.cmd, nums) == tokens + Expand(cmd, nums[i..])
    {
      ghost var rest := Expand(Repeated(cmd), nums[i + n..]);
      ExpandStep(cmd, nums, i);
      Shift(tokens, Token(cmd, nums[i..i + n]), rest);
      tokens := tokens + [Token(cmd, nums[i..i + n])];
      cmd := Repeated(cmd);
      i := i + n;
    }
    assert Expand(cmd, nums[i..]) == [] && tokens + [] == tokens;
  }

  lemma {:induction false} ExpandStep(cmd: Cmd, nums: seq<real>, i: nat)
    requires !cmd.letter.Z? && i + ParamCount(cmd.letter) <= |nums|
    ensures var n := ParamCount(cmd.letter);
            Expand(cmd, nums[i..]) == [Token(cmd, nums[i..i + n])] + Expand(Repeated(cmd), nums[i + n..])
  {
    var n := ParamCount(cmd.letter);
    assert nums[i..][..n] == nums[i..i + n] && nums[i..][n..] == nums[i + n..];
  }

  method Tokenize(chunks: seq<Chunk>) returns (tokens: seq<Token>)
    ensures tokens == ExpandAll(chunks)
  {
    tokens := [];
    for k := 0 to |chunks|
      invariant ExpandAll(chunks) == tokens + ExpandAll(chunks[k..])
    {
      var expanded := TokenizeChunk(chunks[k]);
      assert chunks[k..][1..] == chunks[k + 1..];
      tokens := tokens + expanded;
    }
  }

  // ---- What path data means ---------------------------------------------------------------------

  /** Drawn pieces, each with where it starts (section 8.3 of SVG 1.1). */
  datatype Piece =
    | Move(to: Point)
    | Line(from: Point, to: Point)
    | Cubic(from: Point, c1: Point, c2: Point, to: Point)
    | Quad(from: Point, c1: Point, to: Point)
    | Close(from: Point, to: Point)

  /** The last control point, for the smooth commands that reflect it. */
  datatype Control = Plain | OfCubic(at: Point) | OfQuad(at: Point)

  datatype Pen = Pen(at: Point, start: Point, control: Control)

  const Lifted := Pen(Origin, Origin, Plain)

  function Offset(pen: Pen, relative: bool): Point {
    if relative then pen.at else Origin
  }

  /** The `i`th coordinate pair of a command, made absolute. */
  function Pair(args: seq<real>, i: nat, off: Point): Point
    requires 2 * i + 1 < |args|
  {
    Point(off.x + args[2 * i], off.y + args[2 * i + 1])
  }

  function Reflect(at: Point, control: Point): Point {
    Point(2.0 * at.x - control.x, 2.0 * at.y - control.y)
  }

  function Draw(pen: Pen, t: Token): (Pen, Piece)
    requires |t.args| == ParamCount(t.cmd.letter)
  {
    var off := Offset(pen, t.cmd.relative);
    match t.cmd.letter
    case M => var p := Pair(t.args, 0, off); (Pen(p, p, Plain), Move(p))
    case L => var p := Pair(t.args, 0, off); (Pen(p, pen.start, Plain), Line(pen.at, p))
    case H => var p := Point(off.x + t.args[0], pen.at.y); (Pen(p, pen.start, Plain), Line(pen.at, p))
    case V => var p := Point(pen.at.x, off.y + t.args[0]); (Pen(p, pen.start, Plain), Line(pen.at, p))
    case C =>
      var c1, c2, p := Pair(t.args, 0, off), Pair(t.args, 1, off), Pair(t.args, 2, off);
      (Pen(p, pen.start, OfCubic(c2)), Cubic(pen.at, c1, c2, p))
    case S =>
      var c1 := if pen.control.OfCubic? then Reflect(pen.at, pen.control.at) else pen.at;
      var c2, p := Pair(t.args, 0, off), Pair(t.args, 1, off);
      (Pen(p, pen.start, OfCubic(c2)), Cubic(pen.at, c1, c2, p))
    case Q =>
      var c1, p := Pair(t.args, 0, off), Pair(t.args, 1, off);
      (Pen(p, pen.start, OfQuad(c1)), Quad(pen.at, c1, p))
    case T =>
      var c1 := if pen.control.OfQuad? then Reflect(pen.at, pen.control.at) else pen.at;
      var p := Pair(t.args, 0, off);
      (Pen(p, pen.start, OfQuad(c1)), Quad(pen.at, c1, p))
    case Z => (Pen(pen.start, pen.start, Plain), Close(pen.at, pen.start))
  }

  function DrawAll(pen: Pen, tokens: seq<Token>): seq<Piece>
    requires WellFormed(tokens)
    decreases |tokens|
  {
    if tokens == [] then []
    else
      var (next, piece) := Draw(pen, tokens[0]);
      [piece] + DrawAll(next, tokens[1..])
  }

  function PenAfter(pen: Pen, tokens: seq<Token>): Pen
    requires WellFormed(tokens)
    decreases |tokens|
  {
    if tokens == [] then pen else PenAfter(Draw(pen, tokens[0]).0, tokens[1..])
  }

  /** Path data drawn straight from its letters and numbers, a letter serving as often as its
      numbers last. */
  function DrawChunk(pen: Pen, cmd: Cmd, nums: seq<real>): (Pen, seq<Piece>)
    decreases |nums|
  {
    var n := ParamCount(cmd.letter);
    if n == 0 then
      var (next, piece) := Draw(pen, Token(cmd, []));
      (next, [piece])
    else if |nums| < n then (pen, [])
    else
      var (next, piece) := Draw(pen, Token(cmd, nums[..n]));
      var (last, rest) := DrawChunk(next, if cmd.letter.M? then Cmd(L, cmd.relative) else cmd, nums[n..]);
      (last, [piece] + rest)
  }

  function DrawPath(pen: Pen, chunks: seq<Chunk>): seq<Piece>
    decreases |chunks|
  {
    if chunks == [] then []
    else
      var (next, pieces) := DrawChunk(pen, chunks[0].cmd, chunks[0].nums);
      pieces + DrawPath(next, chunks[1..])
  }

  lemma {:induction false} DrawSplit(pen: Pen, a: seq<Token>, b: seq<Token>)
    requires WellFormed(a) && WellFormed(b)
    ensures WellFormed(a + b)
    ensures DrawAll(pen, a + b) == DrawAll(pen, a) + DrawAll(PenAfter(pen, a), b)
    decreases |a|
  {
    if a == [] {
      assert a + b == b;
    } else {
      assert (a + b)[0] == a[0] && (a + b)[1..] == a[1..] + b;
      DrawSplit(Draw(pen, a[0]).0, a[1..], b);
    }
  }

  lemma {:induction false} ChunkExpands(pen: Pen, cmd: Cmd, nums: seq<real>)
    ensures DrawChunk(pen, cmd, nums) == (PenAfter(pen, Expand(cmd, nums)), DrawAll(pen, Expand(cmd, nums)))
    decreases |nums|
  {
    var n := ParamCount(cmd.letter);
    var tokens := Expand(cmd, nums);
    if n == 0 {
      assert tokens == [Token(cmd, [])] && tokens[0] == Token(cmd, []);
      assert tokens[1..] == [];
      var (next, piece) := Draw(pen, tokens[0]);
      assert DrawAll(next, tokens[1..]) == [] && PenAfter(next, tokens[1..]) == next;
      assert DrawAll(pen, tokens) == [piece] + [] == [piece];
      assert PenAfter(pen, tokens) == next;
    } else if |nums| >= n {
      ChunkExpands(Draw(pen, Token(cmd, nums[..n])).0, Repeated(cmd), nums[n..]);
      assert tokens[1..] == Expand(Repeated(cmd), nums[n..]);
    }
  }

  /** Expanding implicit repeats keeps the meaning. */
  lemma {:induction false} TokensDrawThePath(pen: Pen, chunks: seq<Chunk>)
    ensures DrawAll(pen, ExpandAll(chunks)) == DrawPath(pen, chunks)
    decreases |chunks|
  {
    if chunks != [] {
      ChunkExpands(pen, chunks[0].cmd, chunks[0].nums);
      var first := Expand(chunks[0].cmd, chunks[0].nums);
      DrawSplit(pen, first, ExpandAll(chunks[1..]));
      TokensDrawThePath(PenAfter(pen, first), chunks[1..]);
    }
  }

  // ---- Rewriting ------------------------------------------------------------------------------------

  /** The converter's own position: current point and start of the subpath. */
  datatype Spot = Spot(at: Point, start: Point)

  function PairAt(at: Point, rel: bool, v: seq<real>, i: nat): Point
    requires 2 * i + 1 < |v|
  {
    if rel then Point(at.x + v[2 * i], at.y + v[2 * i + 1]) else Point(v[2 * i], v[2 * i + 1])
  }

  function Pairs(at: Point, rel: bool, v: seq<real>): seq<Point> {
    seq(|v| / 2, i requires 0 <= i < |v| / 2 => PairAt(at, rel, v, i))
  }

  /** The absolute points a command names, in user space. */
  function Points(spot: Spot, t: Token): (pts: seq<Point>)
    requires |t.args| == ParamCount(t.cmd.letter)
    ensures t.cmd.letter.Z? || |pts| > 0
  {
    var rel := t.cmd.relative;
    match t.cmd.letter
    case H => [Point(if rel then spot.at.x + t.args[0] else t.args[0], spot.at.y)]
    case V => [Point(spot.at.x, if rel then spot.at.y + t.args[0] else t.args[0])]
    case _ => Pairs(spot.at, rel, t.args)
  }

  function Written(letter: Letter): Letter {
    if letter.H? || letter.V? then L else letter
  }

  function Flat(pts: seq<Point>): (args: seq<real>)
    ensures |args| == 2 * |pts|
    ensures forall i :: 0 <= i < |pts| ==> args[2 * i] == pts[i].x && args[2 * i + 1] == pts[i].y
    decreases |pts|
  {
    if pts == [] then []
    else
      var init := Flat(pts[..|pts| - 1]);
      init + [pts[|pts| - 1].x, pts[|pts| - 1].y]
  }

  function MapAll(m: Matrix, pts: seq<Point>): seq<Point> {
    seq(|pts|, i requires 0 <= i < |pts| => Map(m, pts[i]))
  }

  function RewriteOne(m: Matrix, spot: Spot, t: Token): (out: (Spot, Token))
    requires |t.args| == ParamCount(t.cmd.letter)
    ensures |out.1.args| == ParamCount(out.1.cmd.letter)
  {
    var pts := Points(spot, t);
    var token := Token(Cmd(Written(t.cmd.letter), false), Flat(MapAll(m, pts)));
    if t.cmd.letter.Z? then (Spot(spot.start, spot.start), token)
    else
      var last := pts[|pts| - 1];
      (Spot(last, if t.cmd.letter.M? then last else spot.start), token)
  }

  function Rewrite(m: Matrix, spot: Spot, tokens: seq<Token>): (out: seq<Token>)
    requires WellFormed(tokens)
    ensures WellFormed(out)
    decreases |tokens|
  {
    if tokens == [] then []
    else
      var (next, token) := RewriteOne(m, spot, tokens[0]);
      [token] + Rewrite(m, next, tokens[1..])
  }

  lemma {:induction false} RewriteFirst(m: Matrix, spot: Spot, tokens: seq<Token>, k: nat)
    requires WellFormed(tokens) && k < |tokens|
    ensures var (next, token) := RewriteOne(m, spot, tokens[k]);
            Rewrite(m, spot, tokens[k..]) == [token] + Rewrite(m, next, tokens[k + 1..])
  {
    assert tokens[k..][0] == tokens[k] && tokens[k..][1..] == tokens[k + 1..];
  }

  method AbsolutePairs(at: Point, rel: bool, v: seq<real>) returns (pts: seq<Point>)
    ensures pts == Pairs(at, rel, v)
  {
    pts := [];
    for i := 0 to |v| / 2
      invariant |pts| == i && forall j :: 0 <= j < i ==> pts[j] == PairAt(at, rel, v, j)
    {
      pts := pts + [PairAt(at, rel, v, i)];
    }
  }

  method AbsolutePoints(at: Point, start: Point, t: Token) returns (pts: seq<Point>)
    requires |t.args| == ParamCount(t.cmd.letter)
    ensures pts == Points(Spot(at, start), t)
  {
    var v, rel := t.args, t.cmd.relative;
    match t.cmd.letter {
      case H => pts := [Point(if rel then at.x + v[0] else v[0], at.y)];
      case V => pts := [Point(at.x, if rel then at.y + v[0] else v[0])];
      case _ => pts := AbsolutePairs(at, rel, v);
    }
  }

  method TransformToken(m: Matrix, at: Point, start: Point, t: Token) returns (at': Point, start': Point, token: Token)
    requires |t.args| == ParamCount(t.cmd.letter)
    ensures (Spot(at', start'), token) == RewriteOne(m, Spot(at, start), t)
  {
    var pts := AbsolutePoints(at, start, t);
    token := Token(Cmd(Written(t.cmd.letter), false), Flat(MapAll(m, pts)));
    at', start' := start, start;
    if !t.cmd.letter.Z? {
      at' := pts[|pts| - 1];
      if t.cmd.letter.M? {
        start' := at';
      }
    }
  }

  method TransformPath(chunks: seq<Chunk>, m: Matrix) returns (out: seq<Token>)
    ensures out == Rewrite(m, Spot(Origin, Origin), ExpandAll(chunks))
  {
    var tokens := Tokenize(chunks);
    out := [];
    var at, start := Origin, Origin;
    assert tokens[0..] == tokens;
    for k := 0 to |tokens|
      invariant Rewrite(m, Spot(Origin, Origin), tokens) == out + Rewrite(m, Spot(at, start), tokens[k..])
    {
      RewriteFirst(m, Spot(at, start), tokens, k);
      var token;
      at, start, token := TransformToken(m, at, start, tokens[k]);
      Shift(out, token, Rewrite(m, Spot(at, start), tokens[k + 1..]));
      out := out + [token];
    }
    assert out + [] == out;
  }

  // ---- Rewriting keeps the picture ----------------------------------------------------------------

  function MapControl(m: Matrix, c: Control): Control {
    match c case Plain => Plain case OfCubic(p) => OfCubic(Map(m, p)) case OfQuad(p) => OfQuad(Map(m, p))
  }

  function MapPen(m: Matrix, pen: Pen): Pen {
    Pen(Map(m, pen.at), Map(m, pen.start), MapControl(m, pen.control))
  }

  function MapPiece(m: Matrix, piece: Piece): Piece {
    match piece
    case Move(p) => Move(Map(m, p))
    case Line(a, b) => Line(Map(m, a), Map(m, b))
    case Cubic(a, c1, c2, b) => Cubic(Map(m, a), Map(m, c1), Map(m, c2), Map(m, b))
    case Quad(a, c1, b) => Quad(Map(m, a), Map(m, c1), Map(m, b))
    case Close(a, b) => Close(Map(m, a), Map(m, b))
  }

  function MapPieces(m: Matrix, pieces: seq<Piece>): seq<Piece> {
    seq(|pieces|, i requires 0 <= i < |pieces| => MapPiece(m, pieces[i]))
  }

  lemma ReflectsRow(r: real, s: real, t: real, x: real, y: real, u: real, v: real)
    ensures Row(r, s, t, 2.0 * x - u, 2.0 * y - v) == 2.0 * Row(r, s, t, x, y) - Row(r, s, t, u, v)
  {
    Spread(r, x, x, -u);
    Spread(s, y, y, -v);
  }

  /** An affine map carries reflections to reflections. */
  lemma MapReflects(m: Matrix, at: Point, control: Point)
    ensures Map(m, Reflect(at, control)) == Reflect(Map(m, at), Map(m, control))
  {
    ReflectsRow(m.a, m.c, m.e, at.x, at.y, control.x, control.y);
    ReflectsRow(m.b, m.d, m.f, at.x, at.y, control.x, control.y);
  }

  /** The absolute pairs of the rewritten command are the mapped pairs of the original. */
  lemma PairsMapped(m: Matrix, spot: Spot, t: Token, pen: Pen, i: nat)
    requires |t.args| == ParamCount(t.cmd.letter) && !t.cmd.letter.H? && !t.cmd.letter.V? && 2 * i + 1 < |t.args|
    requires spot.at == pen.at
    ensures Pair(RewriteOne(m, spot, t).1.args, i, Origin) == Map(m, Pair(t.args, i, Offset(pen, t.cmd.relative)))
    ensures Points(spot, t)[i] == Pair(t.args, i, Offset(pen, t.cmd.relative))
  {
    var pts := Points(spot, t);
    assert MapAll(m, pts)[i] == Map(m, pts[i]);
  }

  predicate Tracks(spot: Spot, pen: Pen) {
    spot.at == pen.at && spot.start == pen.start
  }

  /** One command, drawn after rewriting, is the mapped drawing of the original; and the converter's
      position follows the pen. */
  lemma OneKeepsPicture(m: Matrix, spot: Spot, pen: Pen, t: Token, pen': Pen)
    requires |t.args| == ParamCount(t.cmd.letter) && Tracks(spot, pen)
    requires pen' == MapPen(m, pen) || t.cmd.letter.M?
    ensures var (next, piece) := Draw(pen, t);
            var (spot', token) := RewriteOne(m, spot, t);
            Draw(pen', token) == (MapPen(m, next), MapPiece(m, piece)) && Tracks(spot', next)
  {
    match t.cmd.letter {
      case M => PairsMapped(m, spot, t, pen, 0);
      case L => PairsMapped(m, spot, t, pen, 0);
      case H => assert MapAll(m, Points(spot, t))[0] == Map(m, Points(spot, t)[0]);
      case V => assert MapAll(m, Points(spot, t))[0] == Map(m, Points(spot, t)[0]);
      case C =>
        PairsMapped(m, spot, t, pen, 0);
        PairsMapped(m, spot, t, pen, 1);
        PairsMapped(m, spot, t, pen, 2);
      case S =>
        PairsMapped(m, spot, t, pen, 0);
        PairsMapped(m, spot, t, pen, 1);
        if pen.control.OfCubic? {
          MapReflects(m, pen.at, pen.control.at);
        }
      case Q =>
        PairsMapped(m, spot, t, pen, 0);
        PairsMapped(m, spot, t, pen, 1);
      case T =>
        PairsMapped(m, spot, t, pen, 0);
        if pen.control.OfQuad? {
          MapReflects(m, pen.at, pen.control.at);
        }
      case Z =>
    }
  }

  lemma {:induction false} DrawFirst(pen: Pen, token: Token, more: seq<Token>)
    requires |token.args| == ParamCount(token.cmd.letter) && WellFormed(more)
    ensures WellFormed([token] + more)
    ensures DrawAll(pen, [token] + more) == [Draw(pen, token).1] + DrawAll(Draw(pen, token).0, more)
  {
    assert ([token] + more)[0] == token && ([token] + more)[1..] == more;
  }

  lemma MapFirst(m: Matrix, piece: Piece, rest: seq<Piece>)
    ensures MapPieces(m, [piece] + rest) == [MapPiece(m, piece)] + MapPieces(m, rest)
  {
  }

  lemma {:induction false} RewritingKeepsPicture(m: Matrix, spot: Spot, pen: Pen, tokens: seq<Token>, pen': Pen)
    requires WellFormed(tokens) && Tracks(spot, pen)
    requires pen' == MapPen(m, pen) || (tokens != [] && tokens[0].cmd.letter.M?)
    ensures DrawAll(pen', Rewrite(m, spot, tokens)) == MapPieces(m, DrawAll(pen, tokens))
    decreases |tokens|
  {
    if tokens != [] {
      var t, more := tokens[0], tokens[1..];
      var drawn, written := Draw(pen, t), RewriteOne(m, spot, t);
      OneKeepsPicture(m, spot, pen, t, pen');
      RewritingKeepsPicture(m, written.0, drawn.0, more, MapPen(m, drawn.0));
      PictureFirst(m, pen', drawn, written.1, Rewrite(m, written.0, more), DrawAll(drawn.0, more));
    }
  }

  lemma {:induction false} PictureFirst(
      m: Matrix, pen': Pen, drawn: (Pen, Piece), token: Token, out: seq<Token>, rest: seq<Piece>)
    requires |token.args| == ParamCount(token.cmd.letter) && WellFormed(out)
    requires Draw(pen', token) == (MapPen(m, drawn.0), MapPiece(m, drawn.1))
    requires DrawAll(MapPen(m, drawn.0), out) == MapPieces(m, rest)
    ensures WellFormed([token] + out)
    ensures DrawAll(pen', [token] + out) == MapPieces(m, [drawn.1] + rest)
  {
    DrawFirst(pen', token, out);
    MapFirst(m, drawn.1, rest);
  }

  /** Drawing what the converter writes is drawing the original and then mapping it, exactly when the
      path begins with a moveto, as path data must, or draws nothing, or the map leaves the origin
      where it is. */
  lemma TransformKeepsPicture(chunks: seq<Chunk>, m: Matrix)
    ensures var tokens := ExpandAll(chunks);
            DrawAll(Lifted, Rewrite(m, Spot(Origin, Origin), tokens)) == MapPieces(m, DrawPath(Lifted, chunks))
            <==> tokens == [] || tokens[0].cmd.letter.M? || (m.e == 0.0 && m.f == 0.0)
  {
    var tokens := ExpandAll(chunks);
    TokensDrawThePath(Lifted, chunks);
    if tokens == [] {
      assert DrawAll(Lifted, tokens) == [];
    } else if tokens[0].cmd.letter.M? || (m.e == 0.0 && m.f == 0.0) {
      RewritingKeepsPicture(m, Spot(Origin, Origin), Lifted, tokens, Lifted);
    } else {
      FirstPieceMoves(m, tokens);
    }
  }

  /** Without a leading moveto the rewritten path still starts at the origin, while the mapped picture
      starts where the map puts it. */
  lemma FirstPieceMoves(m: Matrix, tokens: seq<Token>)
    requires WellFormed(tokens) && tokens != [] && !tokens[0].cmd.letter.M?
    requires m.e != 0.0 || m.f != 0.0
    ensures DrawAll(Lifted, Rewrite(m, Spot(Origin, Origin), tokens)) != MapPieces(m, DrawAll(Lifted, tokens))
  {
    var out := Rewrite(m, Spot(Origin, Origin), tokens);
    assert out[0] == RewriteOne(m, Spot(Origin, Origin), tokens[0]).1;
    var written := DrawAll(Lifted, out)[0];
    assert written == Draw(Lifted, out[0]).1 && written.from == Origin;
    var drawn := DrawAll(Lifted, tokens);
    assert drawn[0] == Draw(Lifted, tokens[0]).1 && drawn[0].from == Origin;
    assert MapPieces(m, drawn)[0] == MapPiece(m, drawn[0]);
    assert MapPiece(m, drawn[0]).from == Map(m, Origin);
    assert Row(m.a, m.c, m.e, 0.0, 0.0) == m.e && Row(m.b, m.d, m.f, 0.0, 0.0) == m.f;
  }

  // ---- Nested transforms ----------------------------------------------------------------------------

  lemma Spread(r: real, x: real, y: real, z: real)
    ensures r * (x + y + z) == r * x + r * y + r * z
  {
  }

  lemma Gather(r: real, a: real, s: real, b: real, x: real)
    ensures (r * a + s * b) * x == r * (a * x) + s * (b * x)
  {
    assert (r * a + s * b) * x == (r * a) * x + (s * b) * x;
    assert (r * a) * x == r * (a * x);
    assert (s * b) * x == s * (b * x);
  }

  lemma ComposesRow(r: real, s: real, t: real, n: Matrix, x: real, y: real)
    ensures Row(r * n.a + s * n.b, r * n.c + s * n.d, r * n.e + s * n.f + t, x, y)
         == Row(r, s, t, Row(n.a, n.c, n.e, x, y), Row(n.b, n.d, n.f, x, y))
  {
    Gather(r, n.a, s, n.b, x);
    Gather(r, n.c, s, n.d, y);
    Spread(r, n.a * x, n.c * y, n.e);
    Spread(s, n.b * x, n.d * y, n.f);
  }

  /** Matrix product is composition of maps. */
  lemma Composes(m: Matrix, n: Matrix, p: Point)
    ensures Map(MatMul(m, n), p) == Map(m, Map(n, p))
  {
    var q, mn := Map(n, p), MatMul(m, n);
    ComposesRow(m.a, m.c, m.e, n, p.x, p.y);
    ComposesRow(m.b, m.d, m.f, n, p.x, p.y);
    assert Row(mn.a, mn.c, mn.e, p.x, p.y) == Row(m.a, m.c, m.e, q.x, q.y);
    assert Row(mn.b, mn.d, mn.f, p.x, p.y) == Row(m.b, m.d, m.f, q.x, q.y);
  }

  predicate Absolute(tokens: seq<Token>) {
    forall i :: 0 <= i < |tokens| ==>
      !tokens[i].cmd.relative && !tokens[i].cmd.letter.H? && !tokens[i].cmd.letter.V?
  }

  lemma {:induction false} RewriteIsAbsolute(m: Matrix, spot: Spot, tokens: seq<Token>)
    requires WellFormed(tokens)
    ensures Absolute(Rewrite(m, spot, tokens))
    decreases |tokens|
  {
    if tokens != [] {
      RewriteIsAbsolute(m, RewriteOne(m, spot, tokens[0]).0, tokens[1..]);
    }
  }

  lemma OneComposes(m: Matrix, n: Matrix, spot: Spot, t: Token, other: Spot)
    requires |t.args| == ParamCount(t.cmd.letter)
    ensures RewriteOne(m, other, RewriteOne(n, spot, t).1).1 == RewriteOne(MatMul(m, n), spot, t).1
    ensures RewriteOne(n, spot, t).0 == RewriteOne(MatMul(m, n), spot, t).0
  {
    var once := RewriteOne(n, spot, t).1;
    var pts := Points(spot, t);
    assert Points(other, once) == MapAll(n, pts) by {
      forall i | 0 <= i < |pts|
        ensures Points(other, once)[i] == Map(n, pts[i])
      {
        assert MapAll(n, pts)[i] == Map(n, pts[i]);
      }
    }
    forall i | 0 <= i < |pts|
      ensures MapAll(m, MapAll(n, pts))[i] == MapAll(MatMul(m, n), pts)[i]
    {
      Composes(m, n, pts[i]);
    }
    assert MapAll(m, MapAll(n, pts)) == MapAll(MatMul(m, n), pts);
  }

  /** Rewriting through an inner and then an outer transform is rewriting once through their product. */
  lemma {:induction false} RewritesCompose(m: Matrix, n: Matrix, spot: Spot, tokens: seq<Token>, other: Spot)
    requires WellFormed(tokens)
    ensures Rewrite(m, other, Rewrite(n, spot, tokens)) == Rewrite(MatMul(m, n), spot, tokens)
    decreases |tokens|
  {
    if tokens != [] {
      var (next, token) := RewriteOne(n, spot, tokens[0]);
      OneComposes(m, n, spot, tokens[0], other);
      var once := Rewrite(n, spot, tokens);
      assert once[0] == token && once[1..] == Rewrite(n, next, tokens[1..]);
      RewritesCompose(m, n, next, tokens[1..], RewriteOne(m, other, token).0);
    }
  }
}
