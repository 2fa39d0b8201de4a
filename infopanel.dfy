/** The logic of components/InfoPanel.tsx: the FEN import box (its text and
    error message), the status line, the move-number rows of the history
    table and the texts the copy buttons put on the clipboard. */
module InfoPanel {
  import opened Chess
  import opened Controller

  /** The characters String.prototype.trim removes: ECMAScript WhiteSpace and
      LineTerminator. */
  const SpaceChars: set<char> := {
    '\t', '\n', '\U{000B}', '\U{000C}', '\r', ' ', '\U{00A0}', '\U{1680}',
    '\U{2028}', '\U{2029}', '\U{202F}', '\U{205F}', '\U{3000}', '\U{FEFF}'}

  predicate IsSpace(c: char) {
    c in SpaceChars || '\U{2000}' <= c <= '\U{200A}'
  }

  predicate AllSpace(s: string) {
    forall i | 0 <= i < |s| :: IsSpace(s[i])
  }

  /** The number of whitespace characters `s` starts with. */
  function LeadingSpaces(s: string): (n: nat)
    ensures n <= |s|
    ensures forall k | 0 <= k < n :: IsSpace(s[k])
    ensures n < |s| ==> !IsSpace(s[n])
    decreases |s|
  {
    if s != [] && IsSpace(s[0]) then
      var m := LeadingSpaces(s[1..]);
      assert forall k | 1 <= k < 1 + m :: s[k] == s[1..][k - 1];
      1 + m
    else 0
  }

  /** The number of whitespace characters `s` ends with. */
  function TrailingSpaces(s: string): (n: nat)
    ensures n <= |s|
    ensures forall k | |s| - n <= k < |s| :: IsSpace(s[k])
    ensures n < |s| ==> !IsSpace(s[|s| - 1 - n])
    decreases |s|
  {
    if s != [] && IsSpace(s[|s| - 1]) then
      var m := TrailingSpaces(s[..|s| - 1]);
      assert forall k | |s| - 1 - m <= k < |s| - 1 :: s[k] == s[..|s| - 1][k];
      m + 1
    else 0
  }

  /** String.prototype.trim: the middle of `s`, cut where the first and the
      last non-space characters are. */
  function Trim(s: string): (r: string)
    ensures exists i | 0 <= i <= |s| - |r| :: r == s[i..i + |r|] && AllSpace(s[..i]) && AllSpace(s[i + |r|..])
    ensures r != [] ==> !IsSpace(r[0]) && !IsSpace(r[|r| - 1])
    ensures r == [] <==> AllSpace(s)
  {
    var i := LeadingSpaces(s);
    if i == |s| then
      assert s[..i] == s && s[i..] == [];
      []
    else
      var n := TrailingSpaces(s);
      TrimInner(s, i, n);
      s[i..|s| - n]
  }

  /** Between the leading and the trailing spaces of a text that is not
      blank lies a non-empty middle that starts and ends with non-spaces. */
  lemma TrimInner(s: string, i: nat, n: nat)
    requires i < |s| && (forall k | 0 <= k < i :: IsSpace(s[k])) && !IsSpace(s[i])
    requires n <= |s| && (forall k | |s| - n <= k < |s| :: IsSpace(s[k])) && (n < |s| ==> !IsSpace(s[|s| - 1 - n]))
    ensures i < |s| - n
    ensures AllSpace(s[..i]) && AllSpace(s[|s| - n..])
    ensures !IsSpace(s[|s| - n - 1]) && !AllSpace(s)
  {
  }

  lemma TrimIdempotent(s: string)
    ensures Trim(Trim(s)) == Trim(s)
  {
    var r := Trim(s);
    if r != [] {
      assert LeadingSpaces(r) == 0;
      assert TrailingSpaces(r) == 0;
      assert r[0..|r|] == r;
    }
  }

  const InvalidFenMessage := "FEN non valido. Controlla la stringa incollata."

  /** The import box: the text typed or pasted, and the error shown under it. */
  datatype ImportState = ImportState(importFen: string, fenError: Option<string>)

  /** What handleFenSubmit passes to onLoadFen: nothing for blank input,
      otherwise the trimmed input. */
  function LoadRequest(input: string): (r: Option<string>)
    ensures r.None? <==> AllSpace(input)
    ensures r.Some? ==> r.value == Trim(input) && r.value != "" && Trim(r.value) == r.value
  {
    if Trim(input) == "" then None
    else
      TrimIdempotent(input);
      Some(Trim(input))
  }

  /** handleFenSubmit once the loader has answered. */
  function AfterLoadResult(st: ImportState, ok: bool): (r: ImportState)
    ensures ok ==> r == ImportState("", None)
    ensures !ok ==> r.importFen == st.importFen && r.fenError == Some(InvalidFenMessage)
  {
    if ok then ImportState("", None) else st.(fenError := Some(InvalidFenMessage))
  }

  /** The textarea's onChange: take the new text, and drop a shown error. */
  function AfterEdit(st: ImportState, value: string): (r: ImportState)
    ensures r.importFen == value
    ensures st.fenError == Some(InvalidFenMessage) ==> r.fenError.None?
    ensures st.fenError.None? ==> r.fenError.None?
  {
    ImportState(value, if st.fenError.Some? && st.fenError.value != "" then None else st.fenError)
  }

  /** The error line only ever holds the invalid-FEN message. */
  predicate ImportInv(st: ImportState) {
    st.fenError.None? || st.fenError == Some(InvalidFenMessage)
  }

  lemma ImportInvKept(st: ImportState, ok: bool, value: string)
    requires ImportInv(st)
    ensures ImportInv(AfterLoadResult(st, ok)) && ImportInv(AfterEdit(st, value))
    ensures AfterEdit(st, value).fenError.None?
  {
  }

  function SideName(c: Color): string {
    if c == White then "White" else "Black"
  }

  /** The status line: checkmate first (naming the winner, the side not to
      move), then check (naming the side to move), then draw, then whose turn
      it is. */
  function StatusText(gs: GameState): (r: string)
    ensures r == "Checkmate! " + SideName(Opponent(gs.turn)) + " Wins" <==> gs.isCheckmate
    ensures r == SideName(gs.turn) + " is in Check!" <==> !gs.isCheckmate && gs.inCheck
    ensures r == "Draw / Stalemate" <==> !gs.isCheckmate && !gs.inCheck && gs.isDraw
    ensures r == SideName(gs.turn) + "'s Turn" <==> !gs.isCheckmate && !gs.inCheck && !gs.isDraw
  {
    if gs.isCheckmate then "Checkmate! " + SideName(Opponent(gs.turn)) + " Wins"
    else if gs.inCheck then SideName(gs.turn) + " is in Check!"
    else if gs.isDraw then "Draw / Stalemate"
    else SideName(gs.turn) + "'s Turn"
  }

  /** The status line names a winner exactly on checkmate, and otherwise
      names no side but the one to move. */
  lemma StatusNamesRightSide(gs: GameState)
    ensures (|StatusText(gs)| >= 11 && StatusText(gs)[..11] == "Checkmate! ") <==> gs.isCheckmate
    ensures !gs.isCheckmate && !gs.isDraw ==> StatusText(gs)[..5] == SideName(gs.turn)
  {
    var t := StatusText(gs);
    if !gs.isCheckmate {
      if gs.inCheck || !gs.isDraw {
        assert t[..5] == SideName(gs.turn);
        assert t[0] != 'C';
        assert t[..11][0] == t[0];
      } else {
        assert t[0] == 'D';
        assert t[..11][0] == t[0];
      }
    }
  }

  /** One row of the history table: the move number, White's ply and
      Black's ply ("" while Black has not replied). */
  datatype Row = Row(number: nat, white: string, black: string)

  function HistoryRows(history: seq<string>): (rows: seq<Row>)
    ensures |rows| == (|history| + 1) / 2
  {
    seq((|history| + 1) / 2, i requires 0 <= i < (|history| + 1) / 2 =>
      Row(i + 1, history[2 * i], if 2 * i + 1 < |history| then history[2 * i + 1] else ""))
  }

  /** Reading the table row by row, White then Black. */
  function Cells(rows: seq<Row>): (r: seq<string>)
    ensures |r| == 2 * |rows|
  {
    if rows == [] then [] else [rows[0].white, rows[0].black] + Cells(rows[1..])
  }

  lemma {:induction false} CellsAt(rows: seq<Row>, k: nat)
    requires k < 2 * |rows|
    ensures Cells(rows)[k] == if k % 2 == 0 then rows[k / 2].white else rows[k / 2].black
  {
    if k >= 2 {
      CellsAt(rows[1..], k - 2);
      assert Cells(rows)[k] == Cells(rows[1..])[k - 2];
    }
  }

  /** The table holds the history in order: read cell by cell it gives back
      every ply, with at most one empty cell after the last one, and row i
      is numbered i + 1. */
  lemma HistoryRowsInverse(history: seq<string>)
    ensures var rows := HistoryRows(history);
      && Cells(rows)[..|history|] == history
      && (|history| % 2 == 1 ==> Cells(rows)[|history|] == "")
      && forall i | 0 <= i < |rows| :: rows[i].number == i + 1
  {
    var rows := HistoryRows(history);
    forall k | 0 <= k < |history| ensures Cells(rows)[k] == history[k] {
      CellsAt(rows, k);
    }
    if |history| % 2 == 1 {
      CellsAt(rows, |history|);
    }
  }

  /** Array.prototype.join with a one-character separator. */
  function Join(xs: seq<string>, sep: char): string {
    if xs == [] then ""
    else if |xs| == 1 then xs[0]
    else xs[0] + [sep] + Join(xs[1..], sep)
  }

  /** String.prototype.split on a one-character separator. */
  function Split(s: string, sep: char): (r: seq<string>)
    ensures |r| >= 1
  {
    if s == [] then [""]
    else
      var rest := Split(s[1..], sep);
      if s[0] == sep then [""] + rest else [[s[0]] + rest[0]] + rest[1..]
  }

  lemma {:induction false} SplitWord(a: string, rest: string, sep: char)
    requires sep !in a
    ensures Split(a + rest, sep) == [a + Split(rest, sep)[0]] + Split(rest, sep)[1..]
    decreases |a|
  {
    if a != [] {
      SplitWord(a[1..], rest, sep);
      var whole := a + rest;
      assert a[0] in a;
      assert whole[0] == a[0] && whole[0] != sep;
      assert whole[1..] == a[1..] + rest;
      var inner := Split(whole[1..], sep);
      var parts := Split(rest, sep);
      assert Split(whole, sep) == [[a[0]] + inner[0]] + inner[1..];
      assert inner == [a[1..] + parts[0]] + parts[1..];
      assert inner[0] == a[1..] + parts[0] && inner[1..] == parts[1..];
      assert a == [a[0]] + a[1..];
      assert [a[0]] + inner[0] == a + parts[0];
      assert Split(whole, sep) == [a + parts[0]] + parts[1..];
    } else {
      var parts := Split(rest, sep);
      assert a + rest == rest && a + parts[0] == parts[0];
      assert parts == [parts[0]] + parts[1..];
    }
  }

  /** The copied SAN and UCI texts give the histories back: no ply contains
      a space, so splitting the joined text on spaces recovers the list. */
  lemma {:induction false} SplitJoin(xs: seq<string>, sep: char)
    requires forall i | 0 <= i < |xs| :: sep !in xs[i]
    ensures xs != [] ==> Split(Join(xs, sep), sep) == xs
    ensures xs == [] ==> Join(xs, sep) == "" && Split(Join(xs, sep), sep) == [""]
    decreases |xs|
  {
    if xs == [] {
    } else if |xs| == 1 {
      SplitWord(xs[0], "", sep);
      assert Split("", sep) == [""];
      assert xs[0] + "" == xs[0];
    } else {
      SplitJoin(xs[1..], sep);
      var tail := [sep] + Join(xs[1..], sep);
      SplitWord(xs[0], tail, sep);
      assert xs[0] + [sep] + Join(xs[1..], sep) == xs[0] + tail;
      assert tail[0] == sep && tail[1..] == Join(xs[1..], sep);
      assert Split(tail, sep) == [""] + xs[1..];
      assert xs[0] + "" == xs[0];
      assert xs == [xs[0]] + xs[1..];
    }
  }

  /** The texts of the SAN and UCI copy buttons: the histories joined with
      single spaces. */
  function CopyTexts(gs: GameState): (r: (string, string)) {
    (Join(gs.history, ' '), Join(gs.uciHistory, ' '))
  }

  /** Nothing is lost in the copied texts: as long as no entry contains a
      space (SAN and UCI moves never do), splitting a non-empty history's
      copied text on spaces gives back the history it was made from. An empty
      history is copied as the empty text, which splits into one empty entry. */
  lemma CopyTextsRecover(gs: GameState)
    requires forall i | 0 <= i < |gs.history| :: ' ' !in gs.history[i]
    requires forall i | 0 <= i < |gs.uciHistory| :: ' ' !in gs.uciHistory[i]
    ensures gs.history != [] ==> Split(CopyTexts(gs).0, ' ') == gs.history
    ensures gs.uciHistory != [] ==> Split(CopyTexts(gs).1, ' ') == gs.uciHistory
    ensures gs.history == [] ==> CopyTexts(gs).0 == "" && Split(CopyTexts(gs).0, ' ') == [""]
    ensures gs.uciHistory == [] ==> CopyTexts(gs).1 == "" && Split(CopyTexts(gs).1, ' ') == [""]
  {
    SplitJoin(gs.history, ' ');
    SplitJoin(gs.uciHistory, ' ');
  }

  /** The InfoPanel's own state: the FEN import box. */
  class FenImport {
    var importFen: string
    var fenError: Option<string>

    function State(): ImportState
      reads this
    {
      ImportState(importFen, fenError)
    }

    constructor ()
      ensures State() == ImportState("", None)
    {
      importFen, fenError := "", None;
    }

    method HandleFenSubmit<P>(app: App<P>)
      requires app.Valid()
      modifies this, app, app.game
      ensures app.Valid()
      ensures match LoadRequest(old(importFen))
        case None => State() == old(State()) && app.Model() == old(app.Model())
        case Some(text) =>
          var (s, ok) := AfterLoad(app.game.rules, old(app.Model()), text);
          app.Model() == s && State() == AfterLoadResult(old(State()), ok)
    {
      if Trim(importFen) == "" {
        return;
      }
      var ok := app.HandleLoadFen(Trim(importFen));
      if ok {
        importFen := "";
        fenError := None;
      } else {
        fenError := Some(InvalidFenMessage);
      }
    }

    method HandleChange(value: string)
      modifies this
      ensures State() == AfterEdit(old(State()), value)
    {
      importFen := value;
      if fenError.Some? && fenError.value != "" {
        fenError := None;
      }
    }
  }
}
