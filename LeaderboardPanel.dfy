/**
 * The in-world ten-row leaderboard panel (src/leaderboard/LeaderboardPanel.ts).
 * Each row owns a name text and a score text; their contents are the cells of
 * one array, name of row r at 2r and score at 2r + 1, in the order the source
 * pushes the entities. Positions, fonts and colours are not modelled.
 */
module LeaderboardPanel {
  import opened JsText

  /** A row's two strings, as the world leaderboard hands them over. */
  datatype PanelEntry = PanelEntry(name: string, score: string)

  const Rows := 10
  const Cells := 2 * Rows
  const Placeholder := "---"
  const ScorePlaceholder := "--"
  const NoData := "No data"

  /** The name cell of row `i`, or its placeholder. */
  function NameCell(entries: seq<PanelEntry>, i: nat): string {
    if i < |entries| then entries[i].name else Placeholder
  }

  /** The score cell of row `i`, or its placeholder. */
  function ScoreCell(entries: seq<PanelEntry>, i: nat): string {
    if i < |entries| then entries[i].score else ScorePlaceholder
  }

  /** What `setPanelData` leaves in the twenty cells. */
  function PanelCells(entries: seq<PanelEntry>): seq<string> {
    if |entries| == 0 then
      seq(Cells, k => if k == 0 then NoData else "")
    else
      seq(Cells, (k: nat) => if k % 2 == 0 then NameCell(entries, k / 2) else ScoreCell(entries, k / 2))
  }

  /** The cells of a freshly created panel. */
  function InitialCells(): seq<string> {
    seq(Cells, (k: nat) => if k % 2 == 0 then Placeholder else ScorePlaceholder)
  }

  /** An empty list shows "No data" in the first name cell and blanks everywhere else. */
  lemma EmptyShowsNoData()
    ensures |PanelCells([])| == Cells
    ensures PanelCells([])[0] == NoData
    ensures forall k :: 1 <= k < Cells ==> PanelCells([])[k] == ""
  {
  }

  /**
   * A non-empty list fills row i with entry i for the first ten entries and
   * the placeholders below the last entry.
   */
  lemma RowsShowEntries(entries: seq<PanelEntry>, i: nat)
    requires |entries| > 0 && i < Rows
    ensures |PanelCells(entries)| == Cells
    ensures i < |entries| ==>
      PanelCells(entries)[2 * i] == entries[i].name && PanelCells(entries)[2 * i + 1] == entries[i].score
    ensures i >= |entries| ==>
      PanelCells(entries)[2 * i] == Placeholder && PanelCells(entries)[2 * i + 1] == ScorePlaceholder
  {
    assert (2 * i) / 2 == i && (2 * i) % 2 == 0;
    assert (2 * i + 1) / 2 == i && (2 * i + 1) % 2 == 1;
  }

  /** Entries past the tenth never reach the panel. */
  lemma OnlyFirstTenShown(entries: seq<PanelEntry>)
    requires |entries| > Rows
    ensures PanelCells(entries) == PanelCells(entries[..Rows])
  {
    var a, b := PanelCells(entries), PanelCells(entries[..Rows]);
    forall k | 0 <= k < Cells
      ensures a[k] == b[k]
    {
      assert k / 2 < Rows;
    }
  }

  /** The rank label of row r: its place, from one, and a '.'. */
  function RankLabel(r: nat): string {
    NatToString(r + 1) + "."
  }

  /** A rank label ends in '.' after digits that read back as the place. */
  lemma RankLabelValue(r: nat)
    ensures var tag := RankLabel(r);
      |tag| >= 2 && tag[|tag| - 1] == '.' &&
      IsDigits(tag[..|tag| - 1]) && DigitsValue(tag[..|tag| - 1]) == r + 1
  {
    var digits := NatToString(r + 1);
    NatToStringValue(r + 1);
    assert RankLabel(r)[..|digits|] == digits;
  }

  /** The panel's row texts. */
  class Panel {
    /** Name and score texts, name of row r at 2r, score at 2r + 1. */
    const cells: array<string>
    /** Rank labels "1." to "10.", fixed at creation. */
    const rankLabels: seq<string>

    ghost predicate Valid()
      reads this
    {
      cells.Length == Cells && |rankLabels| == Rows
    }

    /** `createLeaderboardPanel`: ten rows with ranks and placeholders. */
    constructor ()
      ensures Valid() && fresh(cells)
      ensures cells[..] == InitialCells()
      ensures forall r :: 0 <= r < Rows ==> rankLabels[r] == RankLabel(r)
    {
      var texts := new string[Cells];
      var labels: seq<string> := [];
      for r := 0 to Rows
        invariant |labels| == r
        invariant forall j :: 0 <= j < r ==> labels[j] == RankLabel(j)
        invariant forall k :: 0 <= k < 2 * r ==> texts[k] == if k % 2 == 0 then Placeholder else ScorePlaceholder
      {
        labels := labels + [RankLabel(r)];
        texts[2 * r] := Placeholder;
        texts[2 * r + 1] := ScorePlaceholder;
      }
      assert texts[..] == InitialCells();
      cells := texts;
      rankLabels := labels;
    }

    /** `setPanelData`: rewrites all twenty cells. */
    method SetPanelData(entries: seq<PanelEntry>)
      requires Valid()
      modifies cells
      ensures Valid()
      ensures cells[..] == PanelCells(entries)
    {
      if |entries| == 0 {
        for i := 0 to Rows
          invariant forall k :: 0 <= k < 2 * i ==> cells[k] == PanelCells(entries)[k]
        {
          cells[2 * i] := if i == 0 then NoData else "";
          cells[2 * i + 1] := "";
        }
        return;
      }
      for i := 0 to Rows
        invariant forall k :: 0 <= k < 2 * i ==> cells[k] == PanelCells(entries)[k]
      {
        assert (2 * i) / 2 == i && (2 * i + 1) / 2 == i;
        cells[2 * i] := if i < |entries| then entries[i].name else Placeholder;
        cells[2 * i + 1] := if i < |entries| then entries[i].score else ScorePlaceholder;
      }
    }
  }
}
