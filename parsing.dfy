/**
 * What the OBJ and PLY readers (poly/obj.go, poly/ply.go) share: the input as
 * a sequence of lines, the failures that Go reports by panicking or by
 * exiting, column access with its bounds check, and the line-by-line fold
 * both readers perform.
 */
module Parsing {
  import opened Wrappers
  import opened GoLib

  /**
   * Why a parse stops. In Go each of these is a panic (an index out of range,
   * a strconv error, a negative capacity given to make) or, for an unknown
   * OBJ line, a message and os.Exit(1).
   */
  datatype ParseError =
    | UnknownKind(kind: string)
    | MissingColumn(column: nat)
    | BadNumber(text: string)
    | IndexOutOfRange(index: int)
    | NegativeCount(count: int)

  /** strings.Split(line, " "). */
  function Fields(line: string): (cols: seq<string>)
    ensures |cols| >= 1
  {
    Split(line, ' ')
  }

  /** The text of line k, as bufio.Scanner.Text gives it: past the end of the input it is empty. */
  function LineAt(lines: seq<string>, k: nat): (s: string)
    ensures k < |lines| ==> s == lines[k]
    ensures k >= |lines| ==> s == ""
  {
    if k < |lines| then lines[k] else ""
  }

  /** cols[k], or the index-out-of-range failure. */
  function Column(cols: seq<string>, k: nat): (r: Result<string, ParseError>)
    ensures r.Success? <==> k < |cols|
    ensures r.Success? ==> r.value == cols[k]
    ensures r.Failure? ==> r.error == MissingColumn(k)
  {
    if k < |cols| then Success(cols[k]) else Failure(MissingColumn(k))
  }

  /** strconv.ParseFloat(cols[k], 32). */
  function FloatColumn(cols: seq<string>, k: nat): (r: Result<real, ParseError>)
    ensures r.Success? <==> k < |cols| && ParseFloat32(cols[k]).Some?
    ensures r.Success? ==> r.value == ParseFloat32(cols[k]).value
  {
    var text :- Column(cols, k);
    match ParseFloat32(text)
    case Some(x) => Success(x)
    case None => Failure(BadNumber(text))
  }

  /** xs[i], or the index-out-of-range failure, for any Go `int` index. */
  function Lookup<T>(xs: seq<T>, i: int): (r: Result<T, ParseError>)
    ensures r.Success? <==> 0 <= i < |xs|
    ensures r.Success? ==> r.value == xs[i]
    ensures r.Failure? ==> r.error == IndexOutOfRange(i)
  {
    if 0 <= i < |xs| then Success(xs[i]) else Failure(IndexOutOfRange(i))
  }

  /**
   * The state after feeding the lines to `step` one at a time, starting from
   * `init`; the first failing line ends the parse with its failure.
   */
  function FoldLines<S>(step: (S, string) -> Result<S, ParseError>, init: S, lines: seq<string>): Result<S, ParseError> {
    if lines == [] then Success(init)
    else
      match FoldLines(step, init, lines[..|lines| - 1])
      case Failure(e) => Failure(e)
      case Success(s) => step(s, lines[|lines| - 1])
  }

  // ---------------------------------------------------------------------------
  // Laws

  /** One more line: the fold of a longer prefix is one step after the shorter one. */
  lemma FoldNext<S>(step: (S, string) -> Result<S, ParseError>, init: S, lines: seq<string>, i: nat)
    requires i < |lines|
    ensures FoldLines(step, init, lines[..i + 1]) ==
      match FoldLines(step, init, lines[..i])
      case Failure(e) => Failure(e)
      case Success(s) => step(s, lines[i])
  {
    assert lines[..i + 1][..i] == lines[..i];
  }

  /** One more line at the end: the fold is one step after the fold of the lines before it. */
  lemma FoldSnoc<S>(step: (S, string) -> Result<S, ParseError>, init: S, lines: seq<string>, line: string)
    ensures FoldLines(step, init, lines + [line]) ==
      match FoldLines(step, init, lines)
      case Failure(e) => Failure(e)
      case Success(s) => step(s, line)
  {
    assert (lines + [line])[..|lines|] == lines;
  }

  /**
   * A failure is final: once a prefix of the lines fails, the whole input
   * fails with the same error, whatever follows. So a successful parse has a
   * successful parse of every prefix.
   */
  lemma {:induction false} FoldFailureSticks<S>(step: (S, string) -> Result<S, ParseError>, init: S, lines: seq<string>, n: nat)
    requires n <= |lines|
    requires FoldLines(step, init, lines[..n]).Failure?
    ensures FoldLines(step, init, lines) == FoldLines(step, init, lines[..n])
    decreases |lines| - n
  {
    if n < |lines| {
      FoldNext(step, init, lines, n);
      FoldFailureSticks(step, init, lines, n + 1);
    } else {
      assert lines[..n] == lines;
    }
  }

  /** Every prefix of an input that parses also parses. */
  lemma {:induction false} FoldPrefixSucceeds<S>(step: (S, string) -> Result<S, ParseError>, init: S, lines: seq<string>, n: nat)
    requires n <= |lines|
    requires FoldLines(step, init, lines).Success?
    ensures FoldLines(step, init, lines[..n]).Success?
    decreases |lines| - n
  {
    if n < |lines| {
      FoldPrefixSucceeds(step, init, lines, n + 1);
      FoldNext(step, init, lines, n);
    } else {
      assert lines[..n] == lines;
    }
  }

  /** A line on which the step fails stops the parse, wherever it stands. */
  lemma FoldStopsAt<S>(step: (S, string) -> Result<S, ParseError>, init: S, lines: seq<string>, k: nat)
    requires k < |lines|
    requires FoldLines(step, init, lines[..k]).Success? ==> step(FoldLines(step, init, lines[..k]).value, lines[k]).Failure?
    ensures FoldLines(step, init, lines).Failure?
  {
    FoldNext(step, init, lines, k);
    if FoldLines(step, init, lines[..k]).Failure? {
      FoldFailureSticks(step, init, lines, k);
    } else {
      FoldFailureSticks(step, init, lines, k + 1);
    }
  }

  /** The decimal form of an integer has no spaces and no slashes, so Split leaves it whole. */
  lemma FormatIntHasNo(n: int, c: char)
    requires c == ' ' || c == '/'
    ensures c !in FormatInt(n)
  {
    var d := if n < 0 then Digits(-n) else Digits(n);
    assert AllDigits(d);
    assert FormatInt(n) == (if n < 0 then "-" + d else d);
  }

  /** Three separator-free pieces joined by sep split back into the three pieces. */
  lemma SplitThree(a: string, b: string, c: string, sep: char)
    requires sep !in a && sep !in b && sep !in c
    ensures Split(a + [sep] + b + [sep] + c, sep) == [a, b, c]
  {
    var t := b + [sep] + c;
    assert a + [sep] + b + [sep] + c == a + [sep] + t;
    SplitPiece(a, sep, t);
    SplitPiece(b, sep, c);
    SplitPiece(c, sep, []);
  }

  /** Four separator-free pieces joined by sep split back into the four pieces. */
  lemma SplitFour(w: string, x: string, y: string, z: string, sep: char)
    requires sep !in w && sep !in x && sep !in y && sep !in z
    ensures Split(w + [sep] + x + [sep] + y + [sep] + z, sep) == [w, x, y, z]
  {
    SplitThree(x, y, z, sep);
    var rest := x + [sep] + y + [sep] + z;
    SplitPiece(w, sep, rest);
    assert w + [sep] + x + [sep] + y + [sep] + z == w + [sep] + rest;
  }
}
