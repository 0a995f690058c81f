/**
 * The `get_blog_posts` tool over the three-column `posts` table (id, title,
 * content), as test-mcp/mcp_server.py and test5/mcp_tools.py both define it:
 * a fixed SELECT with an optional `LIMIT ?`, and the rows formatted one per
 * line and joined by newlines.
 */
module SimplePosts {
  import opened Wrappers
  import opened Text
  import opened Sql

  /** The query text before the limit; note its trailing space. */
  const SelectPosts := "SELECT id, title, " + "content FROM posts "

  /** The query `get_blog_posts` sends for a given limit. */
  function PostsQuery(limit: Option<int>): Query
  {
    Query(SelectPosts + LimitSuffix(limit), LimitParams(limit))
  }

  /**
   * The query is the fixed SELECT, with ` LIMIT ?` and the limit as its only
   * parameter when the limit is positive, and with no parameter otherwise.
   */
  lemma PostsQueryShape(limit: Option<int>)
    ensures var q := PostsQuery(limit);
      && |SelectPosts| <= |q.text| && q.text[..|SelectPosts|] == SelectPosts
      && (PositiveLimit(limit) ==> q.text == SelectPosts + " LIMIT ?" && q.params == [IntParam(limit.value)])
      && (!PositiveLimit(limit) ==> q.text == SelectPosts && q.params == [])
  {
    var q := PostsQuery(limit);
    assert q.text[..|SelectPosts|] == SelectPosts;
    assert SelectPosts + "" == SelectPosts;
  }

  /** The query has one parameter per placeholder. */
  lemma PostsQueryWellBound(limit: Option<int>)
    ensures WellBound(PostsQuery(limit))
  {
    LimitWellBound(limit);
    assert '?' !in SelectPosts;
    CountConcat('?', SelectPosts, LimitSuffix(limit));
  }

  /** Builds the query as the tool does: start from the SELECT, append the limit when positive. */
  method BuildPostsQuery(limit: Option<int>) returns (q: Query)
    ensures q == PostsQuery(limit)
    ensures WellBound(q)
  {
    var text := SelectPosts;
    var params: seq<Param> := [];
    if limit.Some? && limit.value > 0 {
      text := text + " LIMIT ?";
      params := params + [IntParam(limit.value)];
    }
    q := Query(text, params);
    PostsQueryShape(limit);
    PostsQueryWellBound(limit);
  }

  /** A row of `SELECT id, title, content`. */
  datatype SimpleRow = SimpleRow(id: int, title: string, content: string)

  /** `f"id: {id_} | title: {title} | content={content}"` */
  function FormatSimpleRow(row: SimpleRow): string
  {
    "id: " + IntToString(row.id) + " | title: " + row.title + " | content=" + row.content
  }

  /** A formatted row starts with the id label and the id itself. */
  lemma FormatSimpleRowPrefix(row: SimpleRow)
    ensures var r := FormatSimpleRow(row);
      4 + |IntToString(row.id)| <= |r| && r[..4 + |IntToString(row.id)|] == "id: " + IntToString(row.id)
  {
    var head := "id: " + IntToString(row.id);
    assert FormatSimpleRow(row) == head + (" | title: " + row.title + " | content=" + row.content);
  }

  /** The occurrences of any character in a formatted row: those of the fields plus those of the labels. */
  lemma FormatSimpleRowCount(row: SimpleRow, c: char)
    ensures Count(c, FormatSimpleRow(row))
      == Count(c, "id: ") + Count(c, IntToString(row.id)) + Count(c, " | title: ") + Count(c, row.title)
         + Count(c, " | content=") + Count(c, row.content)
  {
    var s0 := "id: ";
    var s1 := s0 + IntToString(row.id);
    CountConcat(c, s0, IntToString(row.id));
    var s2 := s1 + " | title: ";
    CountConcat(c, s1, " | title: ");
    var s3 := s2 + row.title;
    CountConcat(c, s2, row.title);
    var s4 := s3 + " | content=";
    CountConcat(c, s3, " | content=");
    CountConcat(c, s4, row.content);
  }

  /** The labels of a formatted row hold two '|'. */
  lemma LabelBars()
    ensures Count('|', "id: ") == 0 && Count('|', " | title: ") == 1 && Count('|', " | content=") == 1
  {
    TitleLabelBar();
    ContentLabelBar();
  }

  lemma TitleLabelBar()
    ensures Count('|', " | title: ") == 1
  {
    var a: string, b: string := " ", " title: ";
    CountOnce('|', a, b);
    assert " | title: " == a + ['|'] + b;
  }

  lemma ContentLabelBar()
    ensures Count('|', " | content=") == 1
  {
    var a: string, b: string := " ", " content=";
    CountOnce('|', a, b);
    assert " | content=" == a + ['|'] + b;
  }

  /** No label of a formatted row holds a newline. */
  lemma LabelsNewlineFree()
    ensures Count('\n', "id: ") == 0 && Count('\n', " | title: ") == 0 && Count('\n', " | content=") == 0
  {
    assert '\n' !in "id: ";
    assert '\n' !in " | title: ";
    assert '\n' !in " | content=";
  }

  /** A formatted row has exactly three '|'-separated columns when neither title nor content holds a '|'. */
  lemma FormatSimpleRowColumns(row: SimpleRow)
    requires Count('|', row.title) == 0 && Count('|', row.content) == 0
    ensures Count('|', FormatSimpleRow(row)) == 2
  {
    CountIntToString('|', row.id);
    LabelBars();
    FormatSimpleRowCount(row, '|');
  }

  /** `[_format_post_row(r) for r in rows]`: one display line per row, in row order. */
  function FormatSimpleRows(rows: seq<SimpleRow>): (lines: seq<string>)
    ensures |lines| == |rows|
    ensures forall k :: 0 <= k < |rows| ==> lines[k] == FormatSimpleRow(rows[k])
  {
    if rows == [] then [] else [FormatSimpleRow(rows[0])] + FormatSimpleRows(rows[1..])
  }

  /** The newline-joined display lines, the text the tool returns. */
  function SimpleRowsText(rows: seq<SimpleRow>): string
  {
    Join("\n", FormatSimpleRows(rows))
  }

  /**
   * The returned text is empty exactly when there are no rows, and, when no
   * title or content holds a newline, it has one line per row: n rows, n - 1
   * newlines.
   */
  lemma SimpleRowsTextSpec(rows: seq<SimpleRow>)
    ensures SimpleRowsText(rows) == "" <==> rows == []
    ensures rows != [] && (forall k :: 0 <= k < |rows| ==> '\n' !in rows[k].title && '\n' !in rows[k].content)
      ==> Count('\n', SimpleRowsText(rows)) == |rows| - 1
  {
    if rows != [] {
      FormatSimpleRowPrefix(rows[0]);
      JoinNonEmpty("\n", FormatSimpleRows(rows));
      if forall k :: 0 <= k < |rows| ==> '\n' !in rows[k].title && '\n' !in rows[k].content {
        CountJoinCharSep('\n', FormatSimpleRows(rows));
        NoNewlineInSimpleRows(rows);
      }
    }
  }

  lemma {:induction false} NoNewlineInSimpleRows(rows: seq<SimpleRow>)
    requires forall k :: 0 <= k < |rows| ==> '\n' !in rows[k].title && '\n' !in rows[k].content
    ensures SumCount('\n', FormatSimpleRows(rows)) == 0
  {
    if rows != [] {
      var row := rows[0];
      CountIntToString('\n', row.id);
      LabelsNewlineFree();
      FormatSimpleRowCount(row, '\n');
      assert FormatSimpleRows(rows)[1..] == FormatSimpleRows(rows[1..]);
      NoNewlineInSimpleRows(rows[1..]);
    }
  }

  /** `get_blog_posts`: the rows the query returns, formatted and joined by newlines. */
  method GetBlogPosts(db: Query -> seq<SimpleRow>, limit: Option<int>) returns (text: string)
    ensures text == SimpleRowsText(db(PostsQuery(limit)))
    ensures text == "" <==> db(PostsQuery(limit)) == []
  {
    var q := BuildPostsQuery(limit);
    var rows := db(q);
    text := Join("\n", FormatSimpleRows(rows));
    SimpleRowsTextSpec(rows);
  }
}
