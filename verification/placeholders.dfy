/** Rewriting `?` placeholders as `$1`, `$2`, … for PostgreSQL (bus/sql_database.go). */
module Placeholders {

  /** A statement is a row of plain characters, placeholders and quoted literals. A literal is given by what it
      stands for: inside it, its own quote is written twice. Only an unterminated literal is not closed. */
  datatype Piece = Plain(c: char) | Marker | Quoted(quote: char, body: string, closed: bool)

  predicate IsQuote(c: char) {
    c == '\'' || c == '"'
  }

  // ---- what pieces print as ------------------------------------------------------------------

  function Doubled(body: string, quote: char): string {
    if body == "" then "" else (if body[0] == quote then [quote, quote] else [body[0]]) + Doubled(body[1..], quote)
  }

  /** A literal after its opening quote. */
  function Rest(body: string, quote: char, closed: bool): string {
    Doubled(body, quote) + if closed then [quote] else ""
  }

  function PieceText(piece: Piece): string {
    match piece
    case Plain(c) => [c]
    case Marker => "?"
    case Quoted(quote, body, closed) => [quote] + Rest(body, quote, closed)
  }

  function Print(pieces: seq<Piece>): string {
    if pieces == [] then "" else PieceText(pieces[0]) + Print(pieces[1..])
  }

  /** Plain characters are neither quotes nor placeholders, an unclosed literal ends the statement, and a closed
      literal is not followed by a literal of the same quote (the two quotes would be one doubled quote). */
  predicate Proper(pieces: seq<Piece>) {
    pieces == [] || (ProperHead(pieces[0], pieces[1..]) && Proper(pieces[1..]))
  }

  predicate ProperHead(piece: Piece, rest: seq<Piece>) {
    match piece
    case Plain(c) => !IsQuote(c) && c != '?'
    case Marker => true
    case Quoted(quote, _, closed) =>
      IsQuote(quote) && if closed then rest == [] || !rest[0].Quoted? || rest[0].quote != quote else rest == []
  }

  // ---- reading pieces ------------------------------------------------------------------------

  /** Reads a literal from just after its opening quote: its body, whether it is closed, and its length. */
  function Literal(s: string, quote: char): (r: (string, bool, nat))
    ensures r.2 <= |s| && (r.1 ==> r.2 > 0)
  {
    if s == "" then ("", false, 0)
    else if s[0] != quote then
      var (body, closed, used) := Literal(s[1..], quote);
      ([s[0]] + body, closed, used + 1)
    else if |s| > 1 && s[1] == quote then
      var (body, closed, used) := Literal(s[2..], quote);
      ([quote] + body, closed, used + 2)
    else ("", true, 1)
  }

  function Pieces(s: string): seq<Piece>
    decreases |s|
  {
    if s == "" then []
    else if IsQuote(s[0]) then
      var (body, closed, used) := Literal(s[1..], s[0]);
      [Quoted(s[0], body, closed)] + Pieces(s[1 + used..])
    else [if s[0] == '?' then Marker else Plain(s[0])] + Pieces(s[1..])
  }

  lemma RestHead(c: char, body: string, quote: char, closed: bool)
    ensures Rest([c] + body, quote, closed) == (if c == quote then [quote, quote] else [c]) + Rest(body, quote, closed)
  {
    assert ([c] + body)[1..] == body;
  }

  lemma RestEmpty(quote: char)
    ensures Rest("", quote, true) == [quote] && Rest("", quote, false) == ""
  {
  }

  lemma {:induction false} LiteralPrints(s: string, quote: char)
    ensures var (body, closed, used) := Literal(s, quote);
            Rest(body, quote, closed) == s[..used] && (!closed ==> used == |s|)
            && (closed && used < |s| ==> s[used] != quote)
    decreases |s|
  {
    hide Doubled, Rest;
    if s != "" {
      if s[0] != quote {
        LiteralPrints(s[1..], quote);
        var (body, closed, used) := Literal(s[1..], quote);
        RestHead(s[0], body, quote, closed);
        assert s[..used + 1] == [s[0]] + s[1..][..used];
      } else if |s| > 1 && s[1] == quote {
        LiteralPrints(s[2..], quote);
        var (body, closed, used) := Literal(s[2..], quote);
        RestHead(quote, body, quote, closed);
        assert s[..used + 2] == [quote, quote] + s[2..][..used];
      } else {
        RestEmpty(quote);
      }
    } else {
      RestEmpty(quote);
    }
  }

  lemma {:induction false} LiteralReads(body: string, quote: char, closed: bool, more: string)
    requires if closed then more == "" || more[0] != quote else more == ""
    ensures Literal(Rest(body, quote, closed) + more, quote) == (body, closed, |Rest(body, quote, closed)|)
  {
    var s := Rest(body, quote, closed) + more;
    if body != "" {
      LiteralReads(body[1..], quote, closed, more);
      var k := if body[0] == quote then 2 else 1;
      assert s[k..] == Rest(body[1..], quote, closed) + more;
      assert body == [body[0]] + body[1..];
    }
  }

  lemma PrintHead(piece: Piece, rest: seq<Piece>)
    ensures Print([piece] + rest) == PieceText(piece) + Print(rest)
  {
    assert ([piece] + rest)[1..] == rest;
  }

  /** A statement that starts with a literal: the literal, then the rest. */
  lemma QuotedHead(s: string)
    requires s != "" && IsQuote(s[0])
    ensures var (body, closed, used) := Literal(s[1..], s[0]);
            Pieces(s) == [Quoted(s[0], body, closed)] + Pieces(s[1 + used..])
            && s == PieceText(Quoted(s[0], body, closed)) + s[1 + used..]
            && (closed && 1 + used < |s| ==> s[1 + used] != s[0]) && (!closed ==> s[1 + used..] == "")
  {
    hide Rest, Literal;
    var (body, closed, used) := Literal(s[1..], s[0]);
    LiteralPrints(s[1..], s[0]);
    SplitAt(s, used);
  }

  lemma SplitAt(s: string, used: nat)
    requires 1 + used <= |s|
    ensures s == [s[0]] + s[1..][..used] + s[1 + used..]
    ensures used + 1 < |s| ==> s[1..][used] == s[1 + used]
  {
  }

  /** Reading and printing are inverse: every statement is its pieces, … */
  lemma {:induction false} PrintPieces(s: string)
    ensures Print(Pieces(s)) == s && Proper(Pieces(s))
    decreases |s|
  {
    hide Print, Literal, PieceText;
    if s == "" {
      assert Print([]) == "" by { PrintNothing(); }
    } else if IsQuote(s[0]) {
      var (body, closed, used) := Literal(s[1..], s[0]);
      QuotedHead(s);
      var rest := s[1 + used..];
      PrintPieces(rest);
      PrintHead(Quoted(s[0], body, closed), Pieces(rest));
      FirstPiece(rest);
      assert Pieces(s)[1..] == Pieces(rest);
    } else {
      var head := if s[0] == '?' then Marker else Plain(s[0]);
      PrintPieces(s[1..]);
      PrintHead(head, Pieces(s[1..]));
      assert PieceText(head) == [s[0]] by { OneCharacter(s[0]); }
      assert s == [s[0]] + s[1..];
      assert Pieces(s)[1..] == Pieces(s[1..]);
    }
  }

  lemma PrintNothing()
    ensures Print([]) == ""
  {
  }

  lemma OneCharacter(c: char)
    ensures PieceText(if c == '?' then Marker else Plain(c)) == [c]
  {
  }

  lemma FirstPiece(s: string)
    ensures Pieces(s) != [] ==> s != ""
    ensures Pieces(s) != [] && Pieces(s)[0].Quoted? ==> Pieces(s)[0].quote == s[0]
  {
  }

  /** A literal is read back as it was printed when its own quote does not follow. */
  lemma ReadQuoted(quote: char, body: string, closed: bool, more: string)
    requires IsQuote(quote) && if closed then more == "" || more[0] != quote else more == ""
    ensures var piece := Quoted(quote, body, closed); Pieces(PieceText(piece) + more) == [piece] + Pieces(more)
  {
    hide Rest, Literal;
    var text := Rest(body, quote, closed);
    var s := [quote] + text + more;
    LiteralReads(body, quote, closed, more);
    assert s[1..] == text + more;
    assert s[1 + |text|..] == more;
  }

  /** What is printed starts with a quote only where a literal does. */
  lemma FirstPrinted(pieces: seq<Piece>)
    requires Proper(pieces)
    ensures Print(pieces) != "" && IsQuote(Print(pieces)[0]) ==> pieces[0].Quoted? && pieces[0].quote == Print(pieces)[0]
    ensures pieces == [] ==> Print(pieces) == ""
  {
  }

  /** … and pieces are read back as they were printed, so a statement has one reading. */
  lemma {:induction false} PiecesPrint(pieces: seq<Piece>)
    requires Proper(pieces)
    ensures Pieces(Print(pieces)) == pieces
  {
    hide Literal;
    if pieces != [] {
      var rest := pieces[1..];
      PiecesPrint(rest);
      assert pieces == [pieces[0]] + rest;
      match pieces[0]
      case Quoted(quote, body, closed) =>
        FirstPrinted(rest);
        ReadQuoted(quote, body, closed, Print(rest));
      case _ =>
        assert Print(pieces)[1..] == Print(rest);
    }
  }

  // ---- what is sent to PostgreSQL ------------------------------------------------------------

  function Digit(n: nat): char
    requires n < 10
  {
    "0123456789"[n]
  }

  predicate IsDigit(c: char) {
    '0' <= c <= '9'
  }

  function Decimal(n: nat): string {
    if n < 10 then [Digit(n)] else Decimal(n / 10) + [Digit(n % 10)]
  }

  function Markers(pieces: seq<Piece>): nat {
    if pieces == [] then 0 else (if pieces[0].Marker? then 1 else 0) + Markers(pieces[1..])
  }

  /** The pieces with their placeholders numbered from `n`. */
  function Render(pieces: seq<Piece>, n: nat): string {
    if pieces == [] then ""
    else if pieces[0].Marker? then "$" + Decimal(n) + Render(pieces[1..], n + 1)
    else PieceText(pieces[0]) + Render(pieces[1..], n)
  }

  lemma Associates(a: string, b: string, c: string, d: string)
    ensures a + (b + c + d) == (a + b) + c + d
  {
  }

  /** The n-th placeholder becomes `$n`, and everything else stays as it was. */
  lemma {:induction false} NthMarker(before: seq<Piece>, after: seq<Piece>, n: nat)
    ensures Render(before + [Marker] + after, n)
         == Render(before, n) + ("$" + Decimal(n + Markers(before))) + Render(after, n + Markers(before) + 1)
    ensures Markers(before) == 0 ==> Render(before, n) == Print(before)
  {
    hide Decimal, PieceText;
    var pieces := before + [Marker] + after;
    if before == [] {
      assert pieces[1..] == after && pieces[0] == Marker;
      assert Render(pieces, n) == "$" + Decimal(n) + Render(after, n + 1);
    } else {
      var m := if before[0].Marker? then n + 1 else n;
      var head := if before[0].Marker? then "$" + Decimal(n) else PieceText(before[0]);
      assert pieces[0] == before[0] && pieces[1..] == before[1..] + [Marker] + after;
      NthMarker(before[1..], after, m);
      var tail := "$" + Decimal(n + Markers(before));
      Associates(head, Render(before[1..], m), tail, Render(after, n + Markers(before) + 1));
    }
  }

  // ---- the scanner ---------------------------------------------------------------------------

  /** What the scanner still writes: `quote` is the literal it is inside of, `parameter` the placeholders so far. */
  function Scanned(s: string, quote: seq<char>, parameter: nat): string
    requires |quote| <= 1
    decreases |s|
  {
    if s == "" then ""
    else if quote != [] then
      if s[0] == quote[0] then
        if |s| > 1 && s[1] == quote[0] then [s[0], quote[0]] + Scanned(s[2..], quote, parameter)
        else [s[0]] + Scanned(s[1..], [], parameter)
      else [s[0]] + Scanned(s[1..], quote, parameter)
    else if s[0] == '?' then "$" + Decimal(parameter + 1) + Scanned(s[1..], [], parameter + 1)
    else [s[0]] + Scanned(s[1..], if IsQuote(s[0]) then [s[0]] else [], parameter)
  }

  lemma Regroup(s: string, k: nat, used: nat, more: string)
    requires k <= used <= |s|
    ensures s[..k] + (s[k..][..used - k] + more) == s[..used] + more && s[k..][used - k..] == s[used..]
  {
    assert s[..k] + s[k..][..used - k] == s[..used];
  }

  lemma {:induction false} ScannedLiteral(s: string, quote: char, parameter: nat)
    ensures var used := Literal(s, quote).2; Scanned(s, [quote], parameter) == s[..used] + Scanned(s[used..], [], parameter)
    decreases |s|
  {
    var used := Literal(s, quote).2;
    if s == "" {
      assert s[..used] + Scanned(s[used..], [], parameter) == "";
    } else if s[0] != quote {
      ScannedLiteral(s[1..], quote, parameter);
      Regroup(s, 1, used, Scanned(s[used..], [], parameter));
    } else if |s| > 1 && s[1] == quote {
      ScannedLiteral(s[2..], quote, parameter);
      assert s[..2] == [quote, quote];
      Regroup(s, 2, used, Scanned(s[used..], [], parameter));
    } else {
      assert s[..used] == [quote];
    }
  }

  /** A literal is written as it stands. */
  lemma ScannedQuoted(s: string, parameter: nat)
    requires s != "" && IsQuote(s[0])
    ensures var rest := s[1 + Literal(s[1..], s[0]).2..];
            Pieces(s) != [] && Pieces(s)[0].Quoted?
            && Scanned(s, [], parameter) == PieceText(Pieces(s)[0]) + Scanned(rest, [], parameter) && Pieces(s)[1..] == Pieces(rest)
  {
    hide Literal, Rest, Scanned;
    var (body, closed, used) := Literal(s[1..], s[0]);
    ScannedOpens(s, parameter);
    ScannedLiteral(s[1..], s[0], parameter);
    LiteralPrints(s[1..], s[0]);
    assert s[1..][used..] == s[1 + used..];
    assert Pieces(s) == [Quoted(s[0], body, closed)] + Pieces(s[1 + used..]);
    Associates("", [s[0]], s[1..][..used], Scanned(s[1 + used..], [], parameter));
  }

  lemma ScannedOpens(s: string, parameter: nat)
    requires s != "" && IsQuote(s[0])
    ensures Scanned(s, [], parameter) == [s[0]] + Scanned(s[1..], [s[0]], parameter)
  {
  }

  /** The scanner, one character at a time, writes the numbered pieces. */
  lemma {:induction false} ScannedRenders(s: string, parameter: nat)
    ensures Scanned(s, [], parameter) == Render(Pieces(s), parameter + 1)
    decreases |s|
  {
    hide *;
    if s != "" {
      if IsQuote(s[0]) {
        ScannedRenders(s[1 + Literal(s[1..], s[0]).2..], parameter);
        ScannedQuoted(s, parameter);
        RenderHead(Pieces(s), parameter + 1);
      } else {
        var next := if s[0] == '?' then parameter + 1 else parameter;
        ScannedRenders(s[1..], next);
        ScannedPlain(s, parameter);
        RenderHead(Pieces(s), parameter + 1);
      }
    } else {
      assert Pieces(s) == [] && Scanned(s, [], parameter) == Render([], parameter + 1) by { ScansEmpty(parameter); }
    }
  }

  lemma ScansEmpty(parameter: nat)
    ensures Pieces("") == [] && Scanned("", [], parameter) == Render([], parameter + 1)
  {
  }

  lemma RenderHead(pieces: seq<Piece>, n: nat)
    requires pieces != []
    ensures Render(pieces, n) == if pieces[0].Marker? then "$" + Decimal(n) + Render(pieces[1..], n + 1)
                                 else PieceText(pieces[0]) + Render(pieces[1..], n)
  {
  }

  lemma ScannedPlain(s: string, parameter: nat)
    requires s != "" && !IsQuote(s[0])
    ensures Pieces(s) != [] && Pieces(s)[1..] == Pieces(s[1..]) && (Pieces(s)[0].Marker? <==> s[0] == '?')
    ensures s[0] == '?' ==> Scanned(s, [], parameter) == "$" + Decimal(parameter + 1) + Scanned(s[1..], [], parameter + 1)
    ensures s[0] != '?' ==> Scanned(s, [], parameter) == PieceText(Pieces(s)[0]) + Scanned(s[1..], [], parameter)
  {
    hide Decimal;
  }

  lemma ScannedNothing(quote: seq<char>, parameter: nat)
    requires |quote| <= 1
    ensures Scanned("", quote, parameter) == ""
  {
  }

  /** One turn of the scanner. */
  lemma ScannedStep(s: string, i: nat, quote: seq<char>, parameter: nat, result: string)
    requires i < |s| && |quote| <= 1
    ensures quote != [] && s[i] == quote[0] && i + 1 < |s| && s[i + 1] == quote[0] ==>
              result + Scanned(s[i..], quote, parameter) == result + [s[i]] + quote + Scanned(s[i + 2..], quote, parameter)
    ensures quote != [] && s[i] == quote[0] && !(i + 1 < |s| && s[i + 1] == quote[0]) ==>
              result + Scanned(s[i..], quote, parameter) == result + [s[i]] + Scanned(s[i + 1..], [], parameter)
    ensures quote != [] && s[i] != quote[0] ==>
              result + Scanned(s[i..], quote, parameter) == result + [s[i]] + Scanned(s[i + 1..], quote, parameter)
    ensures quote == [] && s[i] == '?' ==>
              result + Scanned(s[i..], quote, parameter) == result + "$" + Decimal(parameter + 1) + Scanned(s[i + 1..], [], parameter + 1)
    ensures quote == [] && s[i] != '?' ==>
              result + Scanned(s[i..], quote, parameter) == result + [s[i]] + Scanned(s[i + 1..], if IsQuote(s[i]) then [s[i]] else [], parameter)
  {
    hide Decimal, IsQuote;
    var rest := s[i..];
    assert rest[1..] == s[i + 1..];
    if |rest| > 1 {
      assert rest[2..] == s[i + 2..] && rest[1] == s[i + 1];
    }
    if quote != [] {
      assert quote == [quote[0]];
      Associates("", result, [s[i]], quote);
    }
  }

  /** bus/sql_database.go sqlStatement. */
  method SqlStatement(postgres: bool, statement: string) returns (result: string)
    ensures result == if postgres then Render(Pieces(statement), 1) else statement
  {
    hide Scanned, Decimal, Render, Pieces;
    if !postgres {
      return statement;
    }
    result := "";
    var parameter, quote, i := 0, [], 0;
    while i < |statement|
      invariant 0 <= i <= |statement| && |quote| <= 1
      invariant result + Scanned(statement[i..], quote, parameter) == Scanned(statement, [], 0)
    {
      var c := statement[i];
      ScannedStep(statement, i, quote, parameter, result);
      if quote != [] {
        result := result + [c];
        if c == quote[0] {
          if i + 1 < |statement| && statement[i + 1] == quote[0] {
            i := i + 1;
            result := result + quote;
          } else {
            quote := [];
          }
        }
      } else {
        if IsQuote(c) {
          quote := [c];
        }
        if c == '?' {
          parameter := parameter + 1;
          result := result + "$" + Decimal(parameter);
        } else {
          result := result + [c];
        }
      }
      i := i + 1;
    }
    assert statement[i..] == "";
    ScannedNothing(quote, parameter);
    assert result == Scanned(statement, [], 0);
    ScannedRenders(statement, 0);
  }

  // ---- taking the numbers out again ----------------------------------------------------------

  function SkipDigits(s: string): string {
    if s != "" && IsDigit(s[0]) then SkipDigits(s[1..]) else s
  }

  lemma {:induction false} SkipShrinks(s: string)
    ensures |SkipDigits(s)| <= |s|
  {
    if s != "" {
      SkipShrinks(s[1..]);
    }
  }

  /** Erases the numbered markers outside literals. */
  function Erased(s: string): string
    decreases |s|
  {
    if s == "" then ""
    else if IsQuote(s[0]) then
      var used := 1 + Literal(s[1..], s[0]).2;
      s[..used] + Erased(s[used..])
    else if s[0] == '$' && |s| > 1 && IsDigit(s[1]) then
      SkipShrinks(s[1..]);
      "?" + Erased(SkipDigits(s[1..]))
    else [s[0]] + Erased(s[1..])
  }

  predicate StartsWithDigit(pieces: seq<Piece>) {
    pieces != [] && pieces[0].Plain? && IsDigit(pieces[0].c)
  }

  /** No `$` outside a literal, and no placeholder, is followed by a digit. */
  predicate Unambiguous(pieces: seq<Piece>) {
    pieces == [] || ((pieces[0] == Plain('$') || pieces[0].Marker? ==> !StartsWithDigit(pieces[1..])) && Unambiguous(pieces[1..]))
  }

  /** The pieces after the digits they start with. */
  function AfterDigits(pieces: seq<Piece>): seq<Piece> {
    if StartsWithDigit(pieces) then AfterDigits(pieces[1..]) else pieces
  }

  lemma {:induction false} DecimalIsDigits(n: nat)
    ensures Decimal(n) != "" && forall i :: 0 <= i < |Decimal(n)| ==> IsDigit(Decimal(n)[i])
  {
    if n >= 10 {
      DecimalIsDigits(n / 10);
    }
  }

  lemma {:induction false} SkipAll(digits: string, s: string)
    requires forall i :: 0 <= i < |digits| ==> IsDigit(digits[i])
    ensures SkipDigits(digits + s) == SkipDigits(s)
  {
    if digits == "" {
      assert digits + s == s;
    } else {
      assert (digits + s)[1..] == digits[1..] + s;
      SkipAll(digits[1..], s);
    }
  }

  /** What is skipped after a marker are the digits of the statement itself. */
  lemma {:induction false} SkipRendered(pieces: seq<Piece>, n: nat)
    requires Proper(pieces)
    ensures SkipDigits(Render(pieces, n)) == Render(AfterDigits(pieces), n)
    ensures Proper(AfterDigits(pieces)) && |AfterDigits(pieces)| <= |pieces|
    ensures |Print(AfterDigits(pieces))| <= |Print(pieces)|
    ensures StartsWithDigit(pieces) ==> |Print(AfterDigits(pieces))| < |Print(pieces)|
  {
    if StartsWithDigit(pieces) {
      assert Render(pieces, n)[1..] == Render(pieces[1..], n);
      SkipRendered(pieces[1..], n);
    }
  }

  /** Erasing never makes a statement longer than it was, and leaves it as it was exactly when it is unambiguous. */
  lemma {:induction false} EraseRender(pieces: seq<Piece>, n: nat)
    requires Proper(pieces)
    ensures Unambiguous(pieces) ==> Erased(Render(pieces, n)) == Print(pieces)
    ensures !Unambiguous(pieces) ==> |Erased(Render(pieces, n))| < |Print(pieces)|
    decreases |pieces|
  {
    if pieces != [] {
      var rest, s := pieces[1..], Render(pieces, n);
      match pieces[0]
      case Quoted(quote, body, closed) =>
        EraseRender(rest, n);
        EraseQuoted(pieces, n);
      case Marker =>
        SkipRendered(rest, n + 1);
        EraseRender(AfterDigits(rest), n + 1);
        EraseMarker(rest, n);
      case Plain(c) =>
        assert s[1..] == Render(rest, n);
        if c == '$' && StartsWithDigit(rest) {
          SkipRendered(rest, n);
          EraseRender(AfterDigits(rest), n);
        } else {
          EraseRender(rest, n);
          FirstRendered(rest, n);
        }
    }
  }

  /** A rendering starts with a digit, or with a quote, only where the statement does. */
  lemma FirstRendered(pieces: seq<Piece>, n: nat)
    requires Proper(pieces)
    ensures pieces == [] <==> Render(pieces, n) == ""
    ensures pieces != [] ==> (IsDigit(Render(pieces, n)[0]) <==> StartsWithDigit(pieces))
    ensures pieces != [] && IsQuote(Render(pieces, n)[0]) ==> pieces[0].Quoted? && pieces[0].quote == Render(pieces, n)[0]
  {
  }

  lemma EraseMarker(rest: seq<Piece>, n: nat)
    requires Proper(rest)
    ensures Erased("$" + Decimal(n) + Render(rest, n + 1)) == "?" + Erased(Render(AfterDigits(rest), n + 1))
  {
    hide Decimal, Render, AfterDigits, Proper;
    var s := "$" + Decimal(n) + Render(rest, n + 1);
    DecimalIsDigits(n);
    assert s[1..] == Decimal(n) + Render(rest, n + 1);
    assert s[0] == '$' && s[1] == Decimal(n)[0];
    SkipAll(Decimal(n), Render(rest, n + 1));
    SkipRendered(rest, n + 1);
  }

  lemma EraseLiteral(text: string, more: string)
    requires text != "" && IsQuote(text[0]) && Literal(text[1..] + more, text[0]).2 == |text| - 1
    ensures Erased(text + more) == text + Erased(more)
  {
    hide Literal;
    var s := text + more;
    assert s[1..] == text[1..] + more;
    assert s[..|text|] == text && s[|text|..] == more;
  }

  lemma EraseText(quote: char, body: string, closed: bool, more: string)
    requires IsQuote(quote) && if closed then more == "" || more[0] != quote else more == ""
    ensures var text := PieceText(Quoted(quote, body, closed)); Erased(text + more) == text + Erased(more)
  {
    hide Rest, Literal, Erased;
    var text := [quote] + Rest(body, quote, closed);
    LiteralReads(body, quote, closed, more);
    assert text[1..] == Rest(body, quote, closed);
    EraseLiteral(text, more);
  }

  lemma EraseQuoted(pieces: seq<Piece>, n: nat)
    requires Proper(pieces) && pieces != [] && pieces[0].Quoted?
    ensures Erased(Render(pieces, n)) == PieceText(pieces[0]) + Erased(Render(pieces[1..], n))
  {
    hide Erased, PieceText;
    FirstRendered(pieces[1..], n);
    EraseText(pieces[0].quote, pieces[0].body, pieces[0].closed, Render(pieces[1..], n));
  }

  /** Erasing the numbers restores a statement if and only if no `$` outside its literals, and no placeholder,
      is followed by a digit. */
  lemma ErasingRestores(statement: string)
    ensures Erased(Render(Pieces(statement), 1)) == statement <==> Unambiguous(Pieces(statement))
  {
    PrintPieces(statement);
    EraseRender(Pieces(statement), 1);
  }
}
