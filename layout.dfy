/** The result grid: how many columns the display mode gets, how many rows the
    hits need, which hit goes in which cell, and what each card shows. */
module Layout {

  import opened Wrappers
  import opened Text
  import opened Ranking
  import opened Icons

  /** Cards per row: two on a tablet, three on a phone and on a desktop. */
  function Columns(mode: string): (n: nat)
    ensures n == 2 <==> mode == "tablet"
    ensures n == 2 || n == 3
  {
    if mode == "phone" then 3
    else if mode == "tablet" then 2
    else 3
  }

  /** `(count + columns - 1) // columns`: the fewest rows that hold `count` cards. */
  function Rows(count: nat, columns: nat): (rows: nat)
    requires columns > 0
    ensures rows * columns >= count
    ensures count > 0 ==> (rows - 1) * columns < count
    ensures count == 0 ==> rows == 0
  {
    var rows := (count + columns - 1) / columns;
    assert rows * columns == count + columns - 1 - (count + columns - 1) % columns;
    rows
  }

  lemma MulMonotone(a: int, b: int, c: int)
    requires a >= b && c > 0
    ensures a * c >= b * c
  {
  }

  /** Cell `(row, col)` of a grid `columns` wide holds hit `row * columns + col`,
      and that hit sits in no other cell: `row` and `col` are its quotient and
      remainder. */
  lemma CellIndex(row: nat, col: nat, columns: nat)
    requires col < columns
    ensures (row * columns + col) / columns == row
    ensures (row * columns + col) % columns == col
  {
    var a := row * columns + col;
    var q, m := a / columns, a % columns;
    assert q * columns + m == a;
    assert (q - row) * columns == col - m;
    if q > row {
      MulMonotone(q - row, 1, columns);
    } else if q < row {
      MulMonotone(row - q, 1, columns);
    }
  }

  /** Every hit index below `count` has a cell inside the grid, which maps back to it. */
  lemma GridCoversOnce(count: nat, columns: nat, i: nat)
    requires columns > 0 && i < count
    ensures i / columns < Rows(count, columns) && i % columns < columns
    ensures (i / columns) * columns + i % columns == i
  {
    var rows, q := Rows(count, columns), i / columns;
    if q >= rows {
      MulMonotone(q, rows, columns);
    }
  }

  /** The marker wrapped around a highlighted match. */
  function Mark(q: string): string {
    "<mark>" + q + "</mark>"
  }

  /** `text` has a case-insensitive occurrence of `q` starting at `i`. */
  predicate MatchesAt(text: string, q: string, i: nat) {
    i + |q| <= |text| && Lower(text[i..i + |q|]) == Lower(q)
  }

  predicate Occurs(text: string, q: string) {
    exists i: nat | i <= |text| :: MatchesAt(text, q, i)
  }

  /** `re.sub(re.escape(q), f"<mark>{q}</mark>", text, flags=re.I)`: scan left to
      right, replacing every non-overlapping case-insensitive occurrence of `q`
      by `q` itself (as typed) inside the marker. */
  function ReplaceAll(text: string, q: string): string
    requires q != ""
    decreases |text|
  {
    if |text| < |q| then text
    else if Lower(text[..|q|]) == Lower(q) then Mark(q) + ReplaceAll(text[|q|..], q)
    else [text[0]] + ReplaceAll(text[1..], q)
  }

  /** The title or description as shown: highlighted only for a non-empty query. */
  function Highlight(text: string, query: Option<string>): (r: string)
    ensures query.None? || query.value == "" ==> r == text
  {
    match query
    case Some(q) => if q == "" then text else ReplaceAll(text, q)
    case None => text
  }

  /** Dropping the first character of `text` shifts every slice one place left. */
  lemma TailSlice(text: string, i: nat, n: nat)
    requires i + n < |text|
    ensures text[1..][i..i + n] == text[i + 1..i + 1 + n]
  {
    assert text[1..][i..i + n] == text[i + 1..][..n] == text[i + 1..i + 1 + n];
  }

  lemma {:induction false} ReplaceAllGrows(text: string, q: string)
    requires q != ""
    ensures |ReplaceAll(text, q)| >= |text|
    ensures Occurs(text, q) ==> |ReplaceAll(text, q)| > |text|
    decreases |text|
  {
    if |text| >= |q| {
      if Lower(text[..|q|]) == Lower(q) {
        ReplaceAllGrows(text[|q|..], q);
      } else {
        ReplaceAllGrows(text[1..], q);
        if Occurs(text, q) {
          var i: nat :| i <= |text| && MatchesAt(text, q, i);
          assert i + |q| <= |text|;
          assert i > 0;
          TailSlice(text, i - 1, |q|);
          assert MatchesAt(text[1..], q, i - 1);
        }
      }
    }
  }

  /** No occurrence of `q` starts in the first `n` characters of `text`. */
  predicate NoMatchBefore(text: string, q: string, n: nat) {
    forall i :: 0 <= i < n ==> !MatchesAt(text, q, i)
  }

  lemma NoMatchBeforeTail(text: string, q: string, n: nat)
    requires 0 < n <= |text| && NoMatchBefore(text, q, n)
    ensures NoMatchBefore(text[1..], q, n - 1)
  {
    forall i | 0 <= i < n - 1
      ensures !MatchesAt(text[1..], q, i)
    {
      if i + |q| < |text| {
        TailSlice(text, i, |q|);
      }
      assert !MatchesAt(text, q, i + 1);
    }
  }

  /** A stretch `a` in which no occurrence of `q` starts is copied unchanged,
      and the scan goes on with what follows it. */
  lemma {:induction false} ReplaceAllSkips(a: string, b: string, q: string)
    requires q != "" && NoMatchBefore(a + b, q, |a|)
    ensures ReplaceAll(a + b, q) == a + ReplaceAll(b, q)
    decreases |a|
  {
    if a == [] {
      assert a + b == b;
    } else if |a + b| < |q| {
      assert |b| < |q|;
    } else {
      assert !MatchesAt(a + b, q, 0);
      assert (a + b)[0..|q|] == (a + b)[..|q|];
      assert (a + b)[1..] == a[1..] + b;
      NoMatchBeforeTail(a + b, q, |a|);
      ReplaceAllSkips(a[1..], b, q);
      assert a == [a[0]] + a[1..];
    }
  }

  /** An occurrence `m` of `q` at the start is replaced by the marker, and the
      scan goes on after it. */
  lemma ReplaceAllMatch(m: string, b: string, q: string)
    requires q != "" && |m| == |q| && Lower(m) == Lower(q)
    ensures ReplaceAll(m + b, q) == Mark(q) + ReplaceAll(b, q)
  {
    assert (m + b)[..|q|] == m;
    assert (m + b)[|q|..] == b;
  }

  /** The leftmost case-insensitive occurrence of `q` is replaced, the text
      before it is kept, and replacing goes on right after it. With
      `ReplaceAllNoMatch` for the remainder, this marks every occurrence the
      left-to-right, non-overlapping scan of `re.sub` finds. */
  lemma ReplaceAllLeftmost(text: string, q: string, i: nat)
    requires q != "" && MatchesAt(text, q, i)
    requires NoMatchBefore(text, q, i)
    ensures ReplaceAll(text, q) == text[..i] + Mark(q) + ReplaceAll(text[i + |q|..], q)
  {
    var a, m, b := text[..i], text[i..i + |q|], text[i + |q|..];
    assert text == a + (m + b);
    ReplaceAllSkips(a, m + b, q);
    ReplaceAllMatch(m, b, q);
  }

  lemma ReplaceAllNoMatch(text: string, q: string)
    requires q != "" && !Occurs(text, q)
    ensures ReplaceAll(text, q) == text
  {
    assert text + [] == text;
    forall i | 0 <= i < |text|
      ensures !MatchesAt(text, q, i)
    {
    }
    ReplaceAllSkips(text, [], q);
  }

  /** `parts` laid end to end. */
  function Concat(parts: seq<string>): string {
    if parts == [] then "" else parts[0] + Concat(parts[1..])
  }

  /** `n` copies of `s`. */
  function Repeat(s: string, n: nat): string {
    if n == 0 then "" else s + Repeat(s, n - 1)
  }

  /** Back-to-back occurrences of `q`, in any mix of cases, are each replaced:
      `n` of them give `n` markers. */
  lemma {:induction false} ReplaceAllEveryMatch(parts: seq<string>, q: string)
    requires q != ""
    requires forall k :: 0 <= k < |parts| ==> |parts[k]| == |q| && Lower(parts[k]) == Lower(q)
    ensures ReplaceAll(Concat(parts), q) == Repeat(Mark(q), |parts|)
  {
    if parts != [] {
      ReplaceAllMatch(parts[0], Concat(parts[1..]), q);
      ReplaceAllEveryMatch(parts[1..], q);
    }
  }

  /** For instance, both occurrences in "abAB" are marked, not only the first. */
  lemma ReplaceAllMarksBoth()
    ensures ReplaceAll("abAB", "ab") == Mark("ab") + Mark("ab")
  {
    assert Concat(["ab", "AB"]) == "abAB";
    ReplaceAllEveryMatch(["ab", "AB"], "ab");
  }

  /** Highlighting changes the text exactly when the query occurs in it, ignoring case. */
  lemma HighlightChangesIffOccurs(text: string, q: string)
    requires q != ""
    ensures Highlight(text, Some(q)) == text <==> !Occurs(text, q)
  {
    ReplaceAllGrows(text, q);
    if !Occurs(text, q) {
      ReplaceAllNoMatch(text, q);
    }
  }

  /** One rendered tool card. */
  datatype Card = Card(row: nat, column: nat, icon: string, title: string,
                       badge: string, description: string, url: string)

  /** The card of hit `h` in cell `(row, column)`: the category icon, the
      highlighted name, the category badge, the highlighted description and
      the link. */
  function CardFor(h: Hit, row: nat, column: nat, query: Option<string>): Card {
    Card(row, column, CategoryIcon(h.category), Highlight(h.tool.name, query),
         h.category, Highlight(h.tool.description, query), h.tool.url)
  }

  /** The card of hit `i` in a grid `columns` wide. */
  function CellCard(hits: seq<Hit>, i: nat, columns: nat, query: Option<string>): Card
    requires i < |hits| && columns > 0
  {
    CardFor(hits[i], i / columns, i % columns, query)
  }

  function Min(a: int, b: int): int {
    if a <= b then a else b
  }

  /** The cards rendered before row `row` of a grid `columns` wide: one per
      hit, in order, each in its own cell. */
  ghost predicate RenderedUpTo(cards: seq<Card>, hits: seq<Hit>, cells: nat, columns: nat, query: Option<string>)
    requires columns > 0
  {
    && |cards| == Min(cells, |hits|)
    && forall i :: 0 <= i < |cards| ==> cards[i] == CellCard(hits, i, columns, query)
  }

  /** The column loop of one grid row: appends the card of every hit that
      falls in row `row`. */
  method RenderRow(hits: seq<Hit>, row: nat, columns: nat, query: Option<string>, before: seq<Card>)
      returns (cards: seq<Card>)
    requires columns > 0 && RenderedUpTo(before, hits, row * columns, columns, query)
    ensures |cards| == Min((row + 1) * columns, |hits|)
    ensures forall i :: 0 <= i < |cards| ==> cards[i] == CellCard(hits, i, columns, query)
  {
    cards := before;
    for col := 0 to columns
      invariant RenderedUpTo(cards, hits, row * columns + col, columns, query)
    {
      var index := row * columns + col;
      if index < |hits| {
        CellIndex(row, col, columns);
        var card := CardFor(hits[index], row, col, query);
        assert index == |cards| && card == CellCard(hits, index, columns, query);
        cards := cards + [card];
      }
    }
    assert row * columns + columns == (row + 1) * columns;
  }

  /** The row and column loops of the result grid: hit `i` is rendered once,
      in order, in row `i / columns` and column `i % columns`. */
  method RenderGrid(hits: seq<Hit>, mode: string, query: Option<string>) returns (cards: seq<Card>)
    ensures |cards| == |hits|
    ensures forall i :: 0 <= i < |hits| ==>
      cards[i] == CardFor(hits[i], i / Columns(mode), i % Columns(mode), query)
  {
    var columns := Columns(mode);
    var rows := Rows(|hits|, columns);
    cards := [];
    for row := 0 to rows
      invariant RenderedUpTo(cards, hits, row * columns, columns, query)
    {
      cards := RenderRow(hits, row, columns, query, cards);
    }
    assert forall i :: 0 <= i < |hits| ==> cards[i] == CellCard(hits, i, columns, query);
  }
}
