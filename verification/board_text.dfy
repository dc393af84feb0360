/**
 * The textual board used to set up positions: whitespace-separated markers
 * in row-major order, "-" (or any other unknown token) for an empty cell.
 * `WithBoard` parses such a text; `FormatBoard` renders a board the same way.
 */
module BoardText {
  import opened Wrappers
  import opened Players
  import opened Boards

  /** The characters with the Unicode White_Space property. */
  predicate IsWhitespace(c: char) {
    || '\t' <= c <= '\r'
    || c == ' '
    || c == '\U{0085}'
    || c == '\U{00A0}'
    || c == '\U{1680}'
    || '\U{2000}' <= c <= '\U{200A}'
    || c == '\U{2028}'
    || c == '\U{2029}'
    || c == '\U{202F}'
    || c == '\U{205F}'
    || c == '\U{3000}'
  }

  /** A non-empty run of non-whitespace characters. */
  predicate IsWord(w: string) {
    w != [] && forall i :: 0 <= i < |w| ==> !IsWhitespace(w[i])
  }

  /** The length of the run of non-whitespace characters that starts `s`. */
  function WordLength(s: string): (n: nat)
    ensures n <= |s|
    ensures forall i :: 0 <= i < n ==> !IsWhitespace(s[i])
    ensures n < |s| ==> IsWhitespace(s[n])
  {
    if s == [] || IsWhitespace(s[0]) then 0 else 1 + WordLength(s[1..])
  }

  /** The whitespace-separated tokens of `s`, in order. */
  function Tokens(s: string): (tokens: seq<string>)
    ensures forall i :: 0 <= i < |tokens| ==> IsWord(tokens[i])
    decreases |s|
  {
    if s == [] then []
    else if IsWhitespace(s[0]) then Tokens(s[1..])
    else
      var n := WordLength(s);
      [s[..n]] + Tokens(s[n..])
  }

  /** Words joined with single spaces. */
  function Join(words: seq<string>): (text: string) {
    if |words| == 0 then ""
    else if |words| == 1 then words[0]
    else words[0] + " " + Join(words[1..])
  }

  lemma {:induction false} WordLengthOfWord(w: string, rest: string)
    requires IsWord(w)
    requires rest == [] || IsWhitespace(rest[0])
    ensures WordLength(w + rest) == |w|
  {
    if |w| > 1 {
      assert (w + rest)[1..] == w[1..] + rest;
      WordLengthOfWord(w[1..], rest);
    } else {
      assert (w + rest)[1..] == rest;
    }
  }

  /** Splitting joined words gives the words back. */
  lemma {:induction false} TokensOfJoin(words: seq<string>)
    requires forall i :: 0 <= i < |words| ==> IsWord(words[i])
    ensures Tokens(Join(words)) == words
  {
    if |words| == 1 {
      var w := words[0];
      WordLengthOfWord(w, []);
      assert w + [] == w;
      assert w[..|w|] == w && w[|w|..] == [];
    } else if |words| > 1 {
      var w, rest := words[0], " " + Join(words[1..]);
      WordLengthOfWord(w, rest);
      assert (w + rest)[..|w|] == w && (w + rest)[|w|..] == rest;
      assert Join(words) == w + rest;
      assert rest[1..] == Join(words[1..]);
      TokensOfJoin(words[1..]);
    }
  }

  /** A trailing space does not lengthen the first word. */
  lemma {:induction false} WordLengthAppendSpace(s: string)
    ensures WordLength(s + " ") == WordLength(s)
  {
    if s != [] && !IsWhitespace(s[0]) {
      assert (s + " ")[1..] == s[1..] + " ";
      WordLengthAppendSpace(s[1..]);
    }
  }

  /** A trailing space adds no token. */
  lemma {:induction false} TokensAppendSpace(s: string)
    ensures Tokens(s + " ") == Tokens(s)
    decreases |s|
  {
    if s == [] {
      assert Tokens(" ") == Tokens(" "[1..]);
    } else if IsWhitespace(s[0]) {
      assert (s + " ")[1..] == s[1..] + " ";
      TokensAppendSpace(s[1..]);
    } else {
      var n := WordLength(s);
      WordLengthAppendSpace(s);
      assert (s + " ")[..n] == s[..n];
      assert (s + " ")[n..] == s[n..] + " ";
      TokensAppendSpace(s[n..]);
    }
  }

  /**
   * The occupant a token stands for: player one when it is player one's
   * marker, otherwise player two when it is player two's, otherwise nobody.
   */
  function OccupantFor(one: Player, two: Player, token: string): (occupant: Option<Player>)
    ensures occupant == Some(one) <==> token == one.marker
    ensures occupant.Some? && occupant != Some(one) <==> token == two.marker && token != one.marker
    ensures token != one.marker && token == two.marker ==> occupant == Some(two)
    ensures occupant.None? <==> token != one.marker && token != two.marker
  {
    if one.marker == token then Some(one)
    else if two.marker == token then Some(two)
    else None
  }

  /** The 3-wide board whose cell i is read from token i. */
  function ParsedBoard(one: Player, two: Player, tokens: seq<string>): (b: Board)
    ensures |tokens| == 9 ==> Valid(b)
  {
    Board(3, seq(|tokens|, i requires 0 <= i < |tokens| => Cell(CellRef(i), OccupantFor(one, two, tokens[i]))))
  }

  /** Parses a board text token by token. */
  method WithBoard(one: Player, two: Player, text: string) returns (b: Board)
    ensures b.size == 3 && |b.cells| == |Tokens(text)|
    ensures forall i :: 0 <= i < |b.cells| ==>
      b.cells[i] == Cell(CellRef(i), OccupantFor(one, two, Tokens(text)[i]))
    ensures b == ParsedBoard(one, two, Tokens(text))
  {
    var tokens := Tokens(text);
    var cells: seq<Cell> := [];
    for index := 0 to |tokens|
      invariant |cells| == index
      invariant forall i :: 0 <= i < index ==> cells[i] == Cell(CellRef(i), OccupantFor(one, two, tokens[i]))
    {
      var marker := tokens[index];
      var cell :=
        if one.marker == marker then Cell(CellRef(index), Some(one))
        else if two.marker == marker then Cell(CellRef(index), Some(two))
        else Cell(CellRef(index), None);
      cells := cells + [cell];
    }
    b := Board(3, cells);
  }

  /** A cell's text: its occupant's marker, or "-" when it is empty. */
  function CellText(c: Cell): (text: string)
    ensures c.occupant.None? ==> text == "-"
    ensures c.occupant.Some? ==> text == c.occupant.value.marker
  {
    match c.Marker()
    case None => "-"
    case Some(m) => m
  }

  /**
   * The markers of all cells in index order, separated by single spaces:
   * when every cell's text is one word, splitting the rendering gives the
   * cells' texts back, cell by cell.
   */
  function FormatBoard(b: Board): (text: string)
    ensures (forall i :: 0 <= i < |b.cells| ==> IsWord(CellText(b.cells[i]))) ==>
      && |Tokens(text)| == |b.cells|
      && forall i :: 0 <= i < |b.cells| ==> Tokens(text)[i] == CellText(b.cells[i])
  {
    var words := seq(|b.cells|, i requires 0 <= i < |b.cells| => CellText(b.cells[i]));
    assert (forall i :: 0 <= i < |b.cells| ==> IsWord(CellText(b.cells[i]))) ==> Tokens(Join(words)) == words by {
      if forall i :: 0 <= i < |b.cells| ==> IsWord(CellText(b.cells[i])) {
        TokensOfJoin(words);
      }
    }
    Join(words)
  }

  /** A marker that survives the text format: one word, and not "-". */
  predicate PrintableMarker(p: Player) {
    IsWord(p.marker) && p.marker != "-"
  }

  /**
   * Parsing a formatted 3x3 board gives the board back, provided the two
   * players' markers are printable and every occupant is one of them.
   */
  lemma ParseFormatRoundTrip(one: Player, two: Player, b: Board)
    requires Valid(b) && b.size == 3
    requires PrintableMarker(one) && PrintableMarker(two)
    requires forall i :: 0 <= i < |b.cells| ==> b.cells[i].occupant in {None, Some(one), Some(two)}
    ensures ParsedBoard(one, two, Tokens(FormatBoard(b))) == b
  {
    var words := seq(|b.cells|, i requires 0 <= i < |b.cells| => CellText(b.cells[i]));
    assert forall i :: 0 <= i < |words| ==> IsWord(words[i]) by {
      forall i | 0 <= i < |words|
        ensures IsWord(words[i])
      {
        if b.cells[i].occupant.None? {
          assert words[i] == "-";
        }
      }
    }
    TokensOfJoin(words);
    var parsed := ParsedBoard(one, two, words);
    assert |parsed.cells| == |b.cells|;
    forall i | 0 <= i < |b.cells|
      ensures parsed.cells[i] == b.cells[i]
    {
      match b.cells[i].occupant
      case None =>
        assert words[i] == "-";
      case Some(p) =>
        assert words[i] == p.marker;
    }
  }
}
