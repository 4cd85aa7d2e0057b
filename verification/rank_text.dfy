/** formatRankText (telegram/commands.go): renders a channel's ranking as one
    line per entry, "<position>. (<score>) <name>", with a "..." line wherever
    the positions jump, all of it passed through escape. */
module RankText {
  import GoStrings
  import Html

  /** One row of fam100.Rank. */
  datatype PlayerScore = PlayerScore(position: int, score: int, name: string)

  /** A line of the rendered ranking: a "..." marker or one entry. */
  datatype Line = Dots | Entry(ps: PlayerScore)

  const Ellipsis := "..."

  /** The text of "%d. (%2d) %s" for one entry, without its newline. */
  function EntryText(ps: PlayerScore): (text: string)
    ensures |text| > |Ellipsis|
  {
    GoStrings.FormatInt(ps.position) + ". (" + GoStrings.FormatIntWidth(ps.score, 2) + ") " + ps.name
  }

  /** An entry line never reads as a "..." line, so the two kinds of line
      cannot be confused in the rendered text. */
  lemma EntryNeverDots(ps: PlayerScore)
    ensures LineText(Entry(ps)) != LineText(Dots)
  {
  }

  function LineText(line: Line): string {
    match line
    case Dots => Ellipsis
    case Entry(ps) => EntryText(ps)
  }

  /** The buffer a sequence of Fprintf calls leaves: every line followed by
      a newline. */
  function Render(lines: seq<Line>): string
    decreases |lines|
  {
    if |lines| == 0 then "" else Render(lines[..|lines| - 1]) + LineText(lines[|lines| - 1]) + "\n"
  }

  /** Entry i follows a jump in positions. Position 0 doubles as the loop's
      "no previous entry" value, so an entry after one at position 0 never
      gets a "..." line. */
  predicate Gap(rank: seq<PlayerScore>, i: nat)
    requires i < |rank|
  {
    i > 0 && rank[i - 1].position != 0 && rank[i - 1].position + 1 != rank[i].position
  }

  /** The lines contributed by entry i. */
  function Segment(rank: seq<PlayerScore>, i: nat): seq<Line>
    requires i < |rank|
  {
    (if Gap(rank, i) then [Dots] else []) + [Entry(rank[i])]
  }

  /** The lines for the first n entries. */
  function Layout(rank: seq<PlayerScore>, n: nat): seq<Line>
    requires n <= |rank|
    decreases n
  {
    if n == 0 then [] else Layout(rank, n - 1) + Segment(rank, n - 1)
  }

  /** What formatRankText writes before escaping; none is the translation of
      "Tidak ada\n" that fam100.T returns. */
  function RankBody(rank: seq<PlayerScore>, none: string): string {
    "\n" + (if |rank| == 0 then none else Render(Layout(rank, |rank|)))
  }

  /** formatRankText: the lines of the ranking after a leading newline, then
      escape over all of it. */
  method FormatRankText(rank: seq<PlayerScore>, none: string) returns (text: string)
    ensures text == Html.Escape(RankBody(rank, none))
    ensures Html.Unescape(text) == RankBody(rank, none)
    ensures |text| > 0 && text[0] == '\n'
    ensures '<' !in text && '>' !in text
  {
    var buf := "\n";
    if |rank| == 0 {
      buf := buf + none;
    } else {
      var written := WriteRankLines(rank);
      buf := buf + Render(written);
    }
    text := Html.Escape(buf);
    Html.UnescapeEscape(buf);
    Html.EscapeCons('\n', buf[1..]);
    assert buf == ['\n'] + buf[1..];
  }

  /** The loop of formatRankText, with the buffered writer kept as the lines
      Fprintf wrote: lastPos carries the previous position, starting from 0. */
  method WriteRankLines(rank: seq<PlayerScore>) returns (written: seq<Line>)
    ensures written == Layout(rank, |rank|)
  {
    written := [];
    var lastPos := 0;
    var i := 0;
    while i < |rank|
      invariant 0 <= i <= |rank|
      invariant written == Layout(rank, i)
      invariant lastPos == if i == 0 then 0 else rank[i - 1].position
    {
      var ps := rank[i];
      if lastPos != 0 && lastPos + 1 != ps.position {
        written := written + [Dots];
      }
      written := written + [Entry(ps)];
      lastPos := ps.position;
      i := i + 1;
    }
  }

  /** How many entries among the first n follow a jump. */
  function GapCount(rank: seq<PlayerScore>, n: nat): nat
    requires n <= |rank|
    decreases n
  {
    if n == 0 then 0 else GapCount(rank, n - 1) + (if Gap(rank, n - 1) then 1 else 0)
  }

  /** The index of entry i's line among all lines. */
  function LineIndex(rank: seq<PlayerScore>, i: nat): nat
    requires i < |rank|
  {
    i + GapCount(rank, i + 1)
  }

  /** One line per entry, plus one per jump. */
  lemma {:induction false} LayoutLength(rank: seq<PlayerScore>, n: nat)
    requires n <= |rank|
    ensures |Layout(rank, n)| == n + GapCount(rank, n)
    decreases n
  {
    if n > 0 {
      LayoutLength(rank, n - 1);
    }
  }

  /** Rendering more entries only appends lines. */
  lemma {:induction false} LayoutPrefix(rank: seq<PlayerScore>, n: nat, m: nat)
    requires n <= m <= |rank|
    ensures |Layout(rank, n)| <= |Layout(rank, m)|
    ensures Layout(rank, m)[..|Layout(rank, n)|] == Layout(rank, n)
    decreases m - n
  {
    if n < m {
      LayoutPrefix(rank, n, m - 1);
      var a, b := Layout(rank, n), Layout(rank, m - 1);
      var seg := Segment(rank, m - 1);
      assert Layout(rank, m) == b + seg;
      assert (b + seg)[..|a|] == b[..|a|];
    }
  }

  lemma {:induction false} GapCountMonotone(rank: seq<PlayerScore>, n: nat, m: nat)
    requires n <= m <= |rank|
    ensures GapCount(rank, n) <= GapCount(rank, m)
    decreases m - n
  {
    if n < m {
      GapCountMonotone(rank, n, m - 1);
    }
  }

  /** Entry i's line sits at LineIndex(rank, i), these indices follow the
      input order, and a "..." line stands right before entry i exactly when
      the positions jump there. */
  lemma {:induction false} EntryPlacement(rank: seq<PlayerScore>, n: nat, i: nat)
    requires i < n <= |rank|
    ensures LineIndex(rank, i) < |Layout(rank, n)|
    ensures Layout(rank, n)[LineIndex(rank, i)] == Entry(rank[i])
    ensures Gap(rank, i) <==> LineIndex(rank, i) > 0 && Layout(rank, n)[LineIndex(rank, i) - 1] == Dots
    ensures forall k :: i < k < n ==> LineIndex(rank, i) < LineIndex(rank, k)
  {
    var before := Layout(rank, i);
    var upTo := Layout(rank, i + 1);
    var at := LineIndex(rank, i);
    LayoutLength(rank, i);
    LayoutLength(rank, i + 1);
    LayoutPrefix(rank, i + 1, n);
    assert upTo == before + Segment(rank, i);
    assert |upTo| == at + 1;
    assert upTo[at] == Entry(rank[i]);
    if !Gap(rank, i) && i > 0 {
      assert before == Layout(rank, i - 1) + Segment(rank, i - 1);
      assert upTo[at - 1] == before[|before| - 1] == Entry(rank[i - 1]);
    }
    forall k | i < k < n
      ensures at < LineIndex(rank, k)
    {
      GapCountMonotone(rank, i + 1, k + 1);
    }
  }

  /** The entries of a list of lines, "..." lines dropped. */
  function Entries(lines: seq<Line>): seq<PlayerScore>
    decreases |lines|
  {
    if |lines| == 0 then []
    else
      var last := lines[|lines| - 1];
      Entries(lines[..|lines| - 1]) + (if last.Dots? then [] else [last.ps])
  }

  lemma {:induction false} EntriesAppend(a: seq<Line>, b: seq<Line>)
    ensures Entries(a + b) == Entries(a) + Entries(b)
    decreases |b|
  {
    if |b| > 0 {
      var b' := b[..|b| - 1];
      assert (a + b)[..|a + b| - 1] == a + b';
      EntriesAppend(a, b');
    } else {
      assert a + b == a;
    }
  }

  /** Dropping the "..." lines leaves exactly one line per entry, in input
      order. */
  lemma {:induction false} EntriesInOrder(rank: seq<PlayerScore>, n: nat)
    requires n <= |rank|
    ensures Entries(Layout(rank, n)) == rank[..n]
    decreases n
  {
    if n > 0 {
      EntriesInOrder(rank, n - 1);
      var seg := Segment(rank, n - 1);
      EntriesAppend(Layout(rank, n - 1), seg);
      assert Entries([Entry(rank[n - 1])]) == [rank[n - 1]] by {
        assert [Entry(rank[n - 1])][..0] == [];
      }
      if Gap(rank, n - 1) {
        EntriesAppend([Dots], [Entry(rank[n - 1])]);
        assert Entries([Dots]) == [] by {
          assert [Dots][..0] == [];
        }
      }
      assert rank[..n] == rank[..n - 1] + [rank[n - 1]];
    }
  }

  /** An empty ranking renders as a blank line and the "none" text only. */
  lemma EmptyRank(none: string)
    ensures Html.Escape(RankBody([], none)) == "\n" + Html.Escape(none)
  {
  }
}
