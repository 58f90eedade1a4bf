/**
 * The monthly CSV download of the dashboard (`downloadCSV`): a header row
 * and one row of nine cells per month in key order, cells joined by `,`
 * and rows by a line feed.
 */
module CsvExport {
  import opened Text
  import opened Records
  import opened Sorting

  const Header: seq<string> := ["Mes", "Total Posts", "Mediana Views", "Promedio Views", "Promedio Likes",
                                "Total Shares", "Total Comments", "Total Collects", "IR Promedio"]

  /** The cells of a month; `show` is the number-to-text conversion of the runtime. */
  function CsvRow(e: MonthEntry, show: real -> string): (row: seq<string>)
    ensures |row| == |Header| && row[0] == e.key
  {
    var m := e.month;
    [e.key, show(m.total_posts as real), show(m.median_views), show(m.avg_views), show(m.avg_likes),
     show(m.total_shares as real), show(m.total_comments as real), show(m.total_collects as real), show(m.avg_ir)]
  }

  function CsvRows(data: DataSet, show: real -> string): (rows: seq<seq<string>>)
    ensures |rows| == |data| && forall i :: 0 <= i < |data| ==> rows[i] == CsvRow(data[i], show)
  {
    seq(|data|, i requires 0 <= i < |data| => CsvRow(data[i], show))
  }

  /** `Array.prototype.join`: the parts with one separator between neighbours. */
  function JoinWith(parts: seq<string>, sep: char): string
    decreases |parts|
  {
    if |parts| == 0 then ""
    else if |parts| == 1 then parts[0]
    else parts[0] + [sep] + JoinWith(parts[1..], sep)
  }

  /** `String.prototype.split` on one character: the pieces between separators. */
  function SplitOn(s: string, sep: char): (pieces: seq<string>)
    ensures |pieces| > 0
    decreases |s|
  {
    if s == [] then [""]
    else
      var rest := SplitOn(s[1..], sep);
      if s[0] == sep then [""] + rest else [[s[0]] + rest[0]] + rest[1..]
  }

  lemma {:induction false} SplitWithoutSeparator(a: string, sep: char)
    requires sep !in a
    ensures SplitOn(a, sep) == [a]
    decreases |a|
  {
    if a != [] {
      SplitWithoutSeparator(a[1..], sep);
      assert a == [a[0]] + a[1..];
    }
  }

  lemma {:induction false} SplitAfterPiece(a: string, b: string, sep: char)
    requires sep !in a
    ensures SplitOn(a + [sep] + b, sep) == [a] + SplitOn(b, sep)
    decreases |a|
  {
    if a == [] {
      assert a + [sep] + b == [sep] + b;
      assert ([sep] + b)[1..] == b;
    } else {
      assert (a + [sep] + b)[1..] == a[1..] + [sep] + b;
      SplitAfterPiece(a[1..], b, sep);
      assert [a[0]] + a[1..] == a;
    }
  }

  /** Splitting a join gives back the parts when no part holds the separator. */
  lemma {:induction false} SplitJoin(parts: seq<string>, sep: char)
    requires |parts| > 0
    requires forall p :: p in parts ==> sep !in p
    ensures SplitOn(JoinWith(parts, sep), sep) == parts
    decreases |parts|
  {
    if |parts| == 1 {
      SplitWithoutSeparator(parts[0], sep);
    } else {
      assert forall p :: p in parts[1..] ==> p in parts;
      SplitJoin(parts[1..], sep);
      SplitAfterPiece(parts[0], JoinWith(parts[1..], sep), sep);
      assert parts == [parts[0]] + parts[1..];
    }
  }

  lemma {:induction false} JoinAvoids(parts: seq<string>, sep: char, c: char)
    requires c != sep && forall p :: p in parts ==> c !in p
    ensures c !in JoinWith(parts, sep)
    decreases |parts|
  {
    if |parts| > 1 {
      assert forall p :: p in parts[1..] ==> p in parts;
      JoinAvoids(parts[1..], sep, c);
    }
  }

  function Lines(rows: seq<seq<string>>): (lines: seq<string>)
    ensures |lines| == |rows| && forall i :: 0 <= i < |rows| ==> lines[i] == JoinWith(rows[i], ',')
  {
    seq(|rows|, i requires 0 <= i < |rows| => JoinWith(rows[i], ','))
  }

  /** `rows.map(row => row.join(',')).join('\n')`. */
  function CsvText(rows: seq<seq<string>>): string
  {
    JoinWith(Lines(rows), '\n')
  }

  /**
   * The file reads back: splitting on line feeds and then on commas gives
   * back every row, provided no cell holds a comma or a line feed.
   */
  lemma CsvReadsBack(rows: seq<seq<string>>)
    requires |rows| > 0
    requires forall i :: 0 <= i < |rows| ==> |rows[i]| > 0
    requires forall i, c :: 0 <= i < |rows| && c in rows[i] ==> ',' !in c && '\n' !in c
    ensures |SplitOn(CsvText(rows), '\n')| == |rows|
    ensures forall i :: 0 <= i < |rows| ==> SplitOn(SplitOn(CsvText(rows), '\n')[i], ',') == rows[i]
  {
    var lines := Lines(rows);
    forall l | l in lines ensures '\n' !in l {
      var i :| 0 <= i < |lines| && lines[i] == l;
      JoinAvoids(rows[i], ',', '\n');
    }
    SplitJoin(lines, '\n');
    forall i | 0 <= i < |rows| ensures SplitOn(lines[i], ',') == rows[i] {
      SplitJoin(rows[i], ',');
    }
  }

  function FirstCell(row: seq<string>): string
  {
    if |row| > 0 then row[0] else ""
  }

  function ByFirstCell(): (seq<string>, seq<string>) -> bool
  {
    (a: seq<string>, b: seq<string>) => StrLe(FirstCell(a), FirstCell(b))
  }

  lemma ByFirstCellIsPreorder()
    ensures TotalPreorder(ByFirstCell())
  {
    forall a: seq<string>, b: seq<string> ensures ByFirstCell()(a, b) || ByFirstCell()(b, a) {
      StrLeTotal(FirstCell(a), FirstCell(b));
    }
    forall a: seq<string>, b: seq<string>, c: seq<string> | ByFirstCell()(a, b) && ByFirstCell()(b, c)
      ensures ByFirstCell()(a, c)
    {
      StrLeTransitive(FirstCell(a), FirstCell(b), FirstCell(c));
    }
  }

  /** `downloadCSV` without the download itself: the rows and the text of the file. */
  method DownloadCsv(data: DataSet, show: real -> string) returns (rows: seq<seq<string>>, csv: string)
    ensures |rows| == |data| + 1 && rows[0] == Header
    ensures multiset(rows[1..]) == multiset(CsvRows(data, show))
    ensures forall i :: 1 <= i < |rows| ==> |rows[i]| == |Header|
    ensures forall i, j :: 1 <= i < j < |rows| ==> StrLe(rows[i][0], rows[j][0])
    ensures csv == CsvText(rows)
  {
    ByFirstCellIsPreorder();
    var body := SortedCopyOf(CsvRows(data, show), ByFirstCell());
    forall i | 0 <= i < |body| ensures |body[i]| == |Header| {
      assert body[i] in multiset(CsvRows(data, show));
    }
    rows := [Header] + body;
    assert rows[1..] == body;
    forall i, j | 1 <= i < j < |rows| ensures StrLe(rows[i][0], rows[j][0]) {
      assert ByFirstCell()(body[i - 1], body[j - 1]);
    }
    csv := CsvText(rows);
  }
}
