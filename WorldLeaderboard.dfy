/**
 * The world leaderboard (src/leaderboard/WorldLeaderboard.ts): the text
 * rendering of the top ten finished players, the panel rows derived from the
 * same standings, and the per-frame system that sets both up once and rewrites
 * them only when they change.
 */
module WorldLeaderboard {
  import opened Wrappers
  import opened JsText
  import opened Shared
  import opened Ranking
  import opened LeaderboardPanel

  const NameWidth := 10
  const HeaderGap := 4
  const Shown := 10
  const EmptyText := "No entries yet"

  /** Players with a positive best, highest first (stable), at most ten. */
  function Finished(entries: seq<LeaderboardEntry>): (r: seq<LeaderboardEntry>)
    ensures |r| <= Shown
  {
    Top(Scored(entries), Shown)
  }

  /**
   * The finished list is sorted, holds only entries of the board with a
   * positive best, and is all of them when there are at most ten.
   */
  lemma FinishedShape(entries: seq<LeaderboardEntry>)
    ensures var r := Finished(entries);
      Descending(r) && multiset(r) <= multiset(entries) &&
      (forall i :: 0 <= i < |r| ==> r[i].bestScore > 0 && r[i] in entries) &&
      (|Scored(entries)| <= Shown ==> multiset(r) == multiset(Scored(entries)))
  {
    var r := Finished(entries);
    ScoredShape(entries);
    TopShape(Scored(entries), Shown);
    forall i | 0 <= i < |r|
      ensures r[i].bestScore > 0 && r[i] in entries
    {
      assert r[i] in multiset(r);
      assert r[i] in multiset(Scored(entries));
      assert r[i] in multiset(entries);
    }
  }

  /** No finished players exactly when nobody has a positive best. */
  lemma FinishedEmpty(entries: seq<LeaderboardEntry>)
    ensures Finished(entries) == [] <==> forall e :: e in entries ==> e.bestScore <= 0
  {
    var s := Scored(entries);
    ScoredShape(entries);
    if s != [] {
      assert s[0] in multiset(s);
      assert s[0] in multiset(entries);
    }
    if e :| e in entries && e.bestScore > 0 {
      ScoredKeeps(entries, e);
    }
  }

  /** `formatLeaderboardHeader`. */
  function FormatHeader(): (r: string)
    ensures r == "   Player        Points"
  {
    "   " + PadEnd("Player", NameWidth) + Repeat(' ', HeaderGap) + "Points"
  }

  /** A display name cut to ten characters plus "..", or padded to ten. */
  function FitName(name: string): (r: string)
    ensures |name| <= NameWidth ==> |r| == NameWidth && r[..|name|] == name
    ensures |name| > NameWidth ==> r == name[..NameWidth] + ".."
    ensures |name| <= NameWidth ==> forall k :: |name| <= k < NameWidth ==> r[k] == ' '
  {
    PadEndSpaces(name, NameWidth, '.');
    PadEnd(if |name| > NameWidth then Prefix(name, NameWidth) + ".." else name, NameWidth)
  }

  /** Fitting a name adds no line break. */
  lemma FitNameNoNewline(name: string)
    requires '\n' !in name
    ensures '\n' !in FitName(name)
  {
    if |name| > NameWidth {
      assert '\n' !in Prefix(name, NameWidth);
    } else {
      PadEndSpaces(name, NameWidth, '\n');
    }
  }

  /** The rank column: "1. " to "10.". */
  function RankColumn(i: nat): string {
    PadEnd(NatToString(i + 1) + ".", 3)
  }

  /** One line of the board for the player in place `i` (from zero). */
  function FormatLine(i: nat, e: LeaderboardEntry): string {
    RankColumn(i) + " " + FitName(e.displayName) + "  " + IntToString(e.bestScore)
  }

  function Lines(f: seq<LeaderboardEntry>): seq<string> {
    seq(|f|, (i: nat) requires i < |f| => FormatLine(i, f[i]))
  }

  /** `formatLeaderboardText`. */
  function FormatText(entries: seq<LeaderboardEntry>): string {
    var f := Finished(entries);
    if |f| == 0 then EmptyText else Join(Lines(f), "\n")
  }

  /** A join starts with its first part. */
  lemma JoinStart(parts: seq<string>, sep: string)
    requires |parts| >= 1
    ensures parts[0] <= Join(parts, sep)
  {
  }

  /** The board text is never empty, so it always differs from the initial `lastText`. */
  lemma TextNotEmpty(entries: seq<LeaderboardEntry>)
    ensures FormatText(entries) != ""
  {
    var f := Finished(entries);
    if |f| > 0 {
      JoinStart(Lines(f), "\n");
      assert |FormatLine(0, f[0])| > 0;
    }
  }

  /** The board reads "No entries yet" exactly when no player has a positive best. */
  lemma EmptyBoardText(entries: seq<LeaderboardEntry>)
    ensures FormatText(entries) == EmptyText <==> forall e :: e in entries ==> e.bestScore <= 0
  {
    FinishedEmpty(entries);
    var f := Finished(entries);
    if |f| > 0 {
      var first := FormatLine(0, f[0]);
      assert NatToString(1) == "1";
      assert first[0] == '1';
      JoinStart(Lines(f), "\n");
      assert FormatText(entries)[0] == '1';
    }
  }

  /** The rank column holds the place's digits, a '.', and pads to three characters. */
  lemma RankColumnShape(i: nat)
    requires i < Shown
    ensures var digits := NatToString(i + 1);
      |RankColumn(i)| == 3 && |digits| < 3 && RankColumn(i)[..|digits|] == digits &&
      RankColumn(i)[|digits|] == '.' && DigitsValue(digits) == i + 1 &&
      forall k :: |digits| + 1 <= k < 3 ==> RankColumn(i)[k] == ' '
  {
    var digits := NatToString(i + 1);
    PadEndSpaces(digits + ".", 3, '.');
    NatToStringValue(i + 1);
    if i + 1 == 10 {
      assert digits == "10";
    }
    assert (digits + ".")[..|digits|] == digits;
  }

  /** The pieces of a five-part concatenation sit at their offsets. */
  lemma ConcatSlices(a: string, b: string, c: string, d: string, e: string)
    ensures var s := a + b + c + d + e;
      s[..|a|] == a && s[|a| + |b|..|a| + |b| + |c|] == c && s[|a| + |b| + |c| + |d|..] == e
  {
    var s := a + b + c + d + e;
    assert s == a + (b + c + d + e);
    assert s == (a + b) + c + (d + e);
    assert s == (a + b + c + d) + e;
  }

  /** A line starts with the place's digits and a '.', and the name starts at column 4. */
  lemma LineRank(i: nat, e: LeaderboardEntry)
    requires i < Shown
    ensures var line, digits := FormatLine(i, e), NatToString(i + 1);
      |digits| < 3 && line[..|digits|] == digits && line[|digits|] == '.' && line[3] == ' ' &&
      DigitsValue(digits) == i + 1 && line[4..4 + |FitName(e.displayName)|] == FitName(e.displayName)
  {
    var rank, fit, score := RankColumn(i), FitName(e.displayName), IntToString(e.bestScore);
    RankColumnShape(i);
    ConcatSlices(rank, " ", fit, "  ", score);
  }

  /** A name of at most ten characters is shown whole, and the score starts at column 16. */
  lemma LineShortName(i: nat, e: LeaderboardEntry)
    requires i < Shown && |e.displayName| <= NameWidth
    ensures FormatLine(i, e)[4..4 + |e.displayName|] == e.displayName
    ensures FormatLine(i, e)[NameWidth + 6..] == IntToString(e.bestScore)
    ensures forall k :: 4 + |e.displayName| <= k < NameWidth + 6 ==> FormatLine(i, e)[k] == ' '
  {
    var rank, fit, score := RankColumn(i), FitName(e.displayName), IntToString(e.bestScore);
    RankColumnShape(i);
    ConcatSlices(rank, " ", fit, "  ", score);
    var line := FormatLine(i, e);
    assert line[4..4 + |e.displayName|] == line[4..4 + |fit|][..|e.displayName|];
    assert line == (rank + " ") + fit + "  " + score;
    forall k | 4 + |e.displayName| <= k < NameWidth + 6 ensures line[k] == ' ' {
      if k < 4 + NameWidth {
        assert line[k] == fit[k - 4];
      }
    }
  }

  /** A longer name shows its first ten characters and "..", and the score starts at column 18. */
  lemma LineLongName(i: nat, e: LeaderboardEntry)
    requires i < Shown && |e.displayName| > NameWidth
    ensures FormatLine(i, e)[4..NameWidth + 6] == e.displayName[..NameWidth] + ".."
    ensures FormatLine(i, e)[NameWidth + 8..] == IntToString(e.bestScore)
  {
    var rank, fit, score := RankColumn(i), FitName(e.displayName), IntToString(e.bestScore);
    RankColumnShape(i);
    ConcatSlices(rank, " ", fit, "  ", score);
  }

  /** A line holds only the name's characters, digits, '-', '.' and spaces. */
  lemma LineHasNoNewline(i: nat, e: LeaderboardEntry)
    requires '\n' !in e.displayName
    ensures '\n' !in FormatLine(i, e)
  {
    var rank, fit, score := RankColumn(i), FitName(e.displayName), IntToString(e.bestScore);
    var digits := NatToString(i + 1) + ".";
    assert '\n' !in digits;
    PadEndSpaces(digits, 3, '\n');
    FitNameNoNewline(e.displayName);
    if e.bestScore < 0 {
      assert score == [score[0]] + score[1..];
    }
    assert '\n' !in score;
    assert FormatLine(i, e) == rank + " " + fit + "  " + score;
  }

  /**
   * When no display name holds a line break, splitting the board on line
   * breaks gives one line per finished player, in rank order (at most ten).
   */
  lemma BoardLines(entries: seq<LeaderboardEntry>)
    requires forall e :: e in entries ==> '\n' !in e.displayName
    requires Finished(entries) != []
    ensures Split(FormatText(entries), '\n') == Lines(Finished(entries))
    ensures |Split(FormatText(entries), '\n')| <= Shown
  {
    var f := Finished(entries);
    var lines := Lines(f);
    FinishedShape(entries);
    forall i | 0 <= i < |lines|
      ensures '\n' !in lines[i]
    {
      LineHasNoNewline(i, f[i]);
    }
    SplitJoin(lines, '\n');
  }

  /** `buildHistoricTabData`: the same standings as panel rows. */
  function HistoricData(entries: seq<LeaderboardEntry>): seq<PanelEntry> {
    var f := Finished(entries);
    seq(|f|, (i: nat) requires i < |f| => PanelEntry(f[i].displayName, IntToString(f[i].bestScore)))
  }

  /** Row i of the panel data names the player in place i and reads back as their best. */
  lemma HistoricRows(entries: seq<LeaderboardEntry>)
    ensures var r, f := HistoricData(entries), Finished(entries);
      |r| == |f| <= Rows &&
      forall i :: 0 <= i < |r| ==>
        r[i].name == f[i].displayName && IsDigits(r[i].score) && DigitsValue(r[i].score) == f[i].bestScore
  {
    var r, f := HistoricData(entries), Finished(entries);
    forall i | 0 <= i < |r|
      ensures IsDigits(r[i].score) && DigitsValue(r[i].score) == f[i].bestScore
    {
      assert r[i].score == IntToString(f[i].bestScore);
      assert f[i].bestScore > 0 by {
        FinishedShape(entries);
      }
      IntToStringValue(f[i].bestScore);
    }
  }

  /** The change-detection key: `name:score` pieces joined by '|'. */
  function HistoricKey(data: seq<PanelEntry>): string {
    Join(seq(|data|, (i: nat) requires i < |data| => data[i].name + ":" + data[i].score), "|")
  }

  /** The key is empty exactly for an empty board, since every piece holds a ':'. */
  lemma HistoricKeyEmpty(data: seq<PanelEntry>)
    ensures HistoricKey(data) == "" <==> data == []
  {
    if data != [] {
      var parts := seq(|data|, (i: nat) requires i < |data| => data[i].name + ":" + data[i].score);
      JoinStart(parts, "|");
      assert |parts[0]| >= 1;
    }
  }

  /** The state of the closure `setupWorldLeaderboard` installs as a system. */
  class WorldLeaderboardView {
    var setupDone: bool
    var fallbackCreated: bool
    /** Whether the text was parented to the fallback root at (8, 3, 8). */
    var onFallbackRoot: bool
    var lastText: string
    var lastKey: string
    /** The header and body text shapes; `None` before setup. */
    var headerText: Option<string>
    var bodyText: Option<string>
    /** Both text shapes are created hidden. */
    var textVisible: bool
    var panel: Panel?

    ghost predicate Valid()
      reads this, panel
    {
      (setupDone <==> headerText.Some? && bodyText.Some? && panel != null) &&
      (!setupDone ==> headerText == None && bodyText == None && panel == null) &&
      (fallbackCreated ==> setupDone) &&
      (panel != null ==> panel.Valid()) &&
      (lastText != "" ==> bodyText == Some(lastText))
    }

    ghost function Repr(): set<object>
      reads this
    {
      if panel == null then {} else {panel.cells}
    }

    constructor ()
      ensures Valid() && !setupDone && !fallbackCreated && panel == null
      ensures lastText == "" && lastKey == ""
    {
      setupDone, fallbackCreated, onFallbackRoot := false, false, false;
      lastText, lastKey := "", "";
      headerText, bodyText, textVisible := None, None, false;
      panel := null;
    }

    /** `setupWorldLeaderboardText`: both texts and a fresh panel on the given parent. */
    method Setup(entries: seq<LeaderboardEntry>, fallback: bool)
      requires Valid() && !setupDone
      modifies this
      ensures Valid() && setupDone && fresh(panel) && fresh(panel.cells)
      ensures headerText == Some(FormatHeader()) && bodyText == Some(FormatText(entries))
      ensures !textVisible && onFallbackRoot == fallback && panel.cells[..] == InitialCells()
      ensures fallbackCreated == old(fallbackCreated)
      ensures lastText == old(lastText) && lastKey == old(lastKey)
    {
      var p := new Panel();
      var body := FormatText(entries);
      setupDone, onFallbackRoot, headerText, bodyText, textVisible, panel :=
        true, fallback, Some(FormatHeader()), Some(body), false, p;
    }

    /**
     * One frame of the system: the first frames set up (on the named model's
     * entity if the host finds it, on a fallback root otherwise); every later
     * frame rewrites the texts and the panel only when they changed.
     */
    method Tick(entries: seq<LeaderboardEntry>, entityFound: bool)
      requires Valid()
      modifies this, Repr()
      ensures Valid() && setupDone
      ensures !old(setupDone) ==>
        fresh(panel) && fresh(panel.cells) && panel.cells[..] == InitialCells() &&
        bodyText == Some(FormatText(entries)) && lastText == old(lastText) && lastKey == old(lastKey) &&
        onFallbackRoot == !entityFound && fallbackCreated == !entityFound
      ensures old(setupDone) ==>
        panel == old(panel) && onFallbackRoot == old(onFallbackRoot) &&
        fallbackCreated == old(fallbackCreated) && bodyText == Some(FormatText(entries)) &&
        lastText == FormatText(entries) && lastKey == HistoricKey(HistoricData(entries))
      ensures old(setupDone) && HistoricKey(HistoricData(entries)) != old(lastKey) ==>
        panel.cells[..] == PanelCells(HistoricData(entries))
      ensures old(setupDone) && HistoricKey(HistoricData(entries)) == old(lastKey) ==>
        panel.cells[..] == old(panel.cells[..])
    {
      if !setupDone {
        if entityFound {
          Setup(entries, false);
        } else if !fallbackCreated {
          Setup(entries, true);
          fallbackCreated := true;
        }
        return;
      }
      Refresh(entries);
    }

    /** The frames after setup: the texts, then the panel, each rewritten only on change. */
    method Refresh(entries: seq<LeaderboardEntry>)
      requires Valid() && setupDone
      modifies this, Repr()
      ensures Valid() && setupDone
      ensures panel == old(panel) && onFallbackRoot == old(onFallbackRoot)
      ensures fallbackCreated == old(fallbackCreated) && textVisible == old(textVisible)
      ensures headerText == (if FormatText(entries) == old(lastText) then old(headerText) else Some(FormatHeader()))
      ensures bodyText == Some(FormatText(entries)) && lastText == FormatText(entries)
      ensures lastKey == HistoricKey(HistoricData(entries))
      ensures HistoricKey(HistoricData(entries)) != old(lastKey) ==>
        panel.cells[..] == PanelCells(HistoricData(entries))
      ensures HistoricKey(HistoricData(entries)) == old(lastKey) ==>
        panel.cells[..] == old(panel.cells[..])
    {
      RefreshText(entries);
      RefreshPanel(entries);
    }

    /** The text half of a frame: both texts are rewritten when the body changed. */
    method RefreshText(entries: seq<LeaderboardEntry>)
      requires Valid() && setupDone
      modifies this
      ensures Valid() && setupDone
      ensures panel == old(panel) && onFallbackRoot == old(onFallbackRoot) && lastKey == old(lastKey)
      ensures fallbackCreated == old(fallbackCreated) && textVisible == old(textVisible)
      ensures headerText == (if FormatText(entries) == old(lastText) then old(headerText) else Some(FormatHeader()))
      ensures bodyText == Some(FormatText(entries)) && lastText == FormatText(entries)
    {
      var text := FormatText(entries);
      assert text != "" by {
        TextNotEmpty(entries);
      }
      if text != lastText {
        lastText, headerText, bodyText := text, Some(FormatHeader()), Some(text);
      }
    }

    /** The panel half of a frame: the rows are rewritten when the key changed. */
    method RefreshPanel(entries: seq<LeaderboardEntry>)
      requires Valid() && setupDone
      modifies this, Repr()
      ensures Valid() && setupDone
      ensures panel == old(panel) && onFallbackRoot == old(onFallbackRoot)
      ensures fallbackCreated == old(fallbackCreated) && textVisible == old(textVisible)
      ensures headerText == old(headerText) && bodyText == old(bodyText) && lastText == old(lastText)
      ensures lastKey == HistoricKey(HistoricData(entries))
      ensures HistoricKey(HistoricData(entries)) != old(lastKey) ==>
        panel.cells[..] == PanelCells(HistoricData(entries))
      ensures HistoricKey(HistoricData(entries)) == old(lastKey) ==>
        panel.cells[..] == old(panel.cells[..])
    {
      var data := HistoricData(entries);
      var key := HistoricKey(data);
      if key != lastKey {
        lastKey := key;
        panel.SetPanelData(data);
      }
    }
  }

  /**
   * The placeholders survive an empty board: an empty key equals the initial
   * one, so "No data" only appears after a non-empty board empties again.
   */
  method EmptyBoardScenario()
  {
    var view := new WorldLeaderboardView();
    view.Tick([], true);
    assert view.panel.cells[..] == InitialCells();
    assert HistoricKey(HistoricData([])) == "" by {
      HistoricKeyEmpty(HistoricData([]));
    }
    view.Tick([], true);
    assert view.panel.cells[..] == InitialCells();

    var alice := LeaderboardEntry("0xa1", "alice", 640, 1);
    var unfinished := LeaderboardEntry("0xb2", "bob", 0, 1);
    var board := [unfinished, alice];
    assert Finished(board) == [alice] by {
      assert board[1..] == [alice] && [alice][1..] == [];
      assert Scored(board) == [alice];
      assert SortByScore([alice]) == Insert(alice, SortByScore([]));
    }
    var data := HistoricData(board);
    assert data[0].name == "alice" && |data| == 1;
    assert HistoricKey(data) != "" by {
      HistoricKeyEmpty(data);
    }
    view.Tick(board, true);
    assert view.panel.cells[0] == "alice" by {
      RowsShowEntries(data, 0);
    }

    assert Finished([unfinished]) == [] by {
      assert [unfinished][1..] == [];
      assert Scored([unfinished]) == [];
    }
    view.Tick([unfinished], true);
    assert view.panel.cells[..] == PanelCells([]);
  }
}
