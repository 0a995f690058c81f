/**
 * The blog-post tools over the full `posts` table (id, title, author, pub_date,
 * slug, tags): `list_posts` and `filter_posts` of test1/mcp-server-blogs.py,
 * which return a list of display lines, and `get_blog_posts` and `filter_posts`
 * of test5/index.py, which build the same queries and return the lines joined
 * by newlines.
 */
module BlogQueries {
  import opened Wrappers
  import opened Text
  import opened Sql
  import opened Seqs

  const PostColumns := "SELECT id, title, author, " + "pub_date, slug, tags FROM posts"

  // ---------------------------------------------------------------------------
  // sort order
  // ---------------------------------------------------------------------------

  /** `order.lower()`, replaced by "desc" unless it is "asc" or "desc". */
  function NormalizeOrder(order: string): (r: string)
    ensures r == "asc" || r == "desc"
    ensures r == "asc" <==> Lower(order) == "asc"
  {
    var o := Lower(order);
    if o == "asc" || o == "desc" then o else "desc"
  }

  /** `f" ORDER BY pub_date {order.upper()}"` for the normalised order. */
  function OrderClause(order: string): (r: string)
    ensures r == " ORDER BY pub_date ASC" || r == " ORDER BY pub_date DESC"
    ensures r == " ORDER BY pub_date ASC" <==> Lower(order) == "asc"
  {
    var o := NormalizeOrder(order);
    assert Upper("asc") == "ASC" && Upper("desc") == "DESC";
    " ORDER BY pub_date " + Upper(o)
  }

  // ---------------------------------------------------------------------------
  // list_posts / get_blog_posts
  // ---------------------------------------------------------------------------

  /** The query `list_posts` sends: every post, ordered by date, limited when the limit is positive. */
  function ListQuery(limit: Option<int>, order: string): Query
  {
    Query(PostColumns + OrderClause(order) + LimitSuffix(limit), LimitParams(limit))
  }

  /** The list query has one parameter per placeholder: `[limit]` for a positive limit, none otherwise. */
  lemma ListQueryWellBound(limit: Option<int>, order: string)
    ensures WellBound(ListQuery(limit, order))
    ensures ListQuery(limit, order).params == (if PositiveLimit(limit) then [IntParam(limit.value)] else [])
  {
    LimitWellBound(limit);
    PostColumnsAndOrderFree(order);
    CountConcat('?', PostColumns + OrderClause(order), LimitSuffix(limit));
  }

  lemma PostColumnsAndOrderFree(order: string)
    ensures Placeholders(PostColumns + OrderClause(order)) == 0
  {
    PostColumnsFree();
    OrderClauseFree(order);
    CountConcat('?', PostColumns, OrderClause(order));
  }

  lemma PostColumnsFree()
    ensures Placeholders(PostColumns) == 0
  {
    assert '?' !in "SELECT id, title, author, ";
    assert '?' !in "pub_date, slug, tags FROM posts";
    CountConcat('?', "SELECT id, title, author, ", "pub_date, slug, tags FROM posts");
  }

  lemma OrderClauseFree(order: string)
    ensures Placeholders(OrderClause(order)) == 0
  {
    var r := OrderClause(order);
    if r == " ORDER BY pub_date ASC" {
      assert '?' !in " ORDER BY pub_date ASC";
    } else {
      assert '?' !in " ORDER BY pub_date DESC";
    }
  }

  /**
   * The tail both tools append: the ORDER BY on the normalised order, then
   * ` LIMIT ?` and the limit's value when the limit is positive.
   */
  method AppendOrderAndLimit(text: string, params: seq<Param>, order: string, limit: Option<int>) returns (q: Query)
    ensures q == Query(text + OrderClause(order) + LimitSuffix(limit), params + LimitParams(limit))
  {
    var o := Lower(order);
    if o != "asc" && o != "desc" {
      o := "desc";
    }
    var t := text + " ORDER BY pub_date " + Upper(o);
    assert o == NormalizeOrder(order);
    Assoc(text, " ORDER BY pub_date ", Upper(o));
    assert t == text + OrderClause(order);
    var ps := params;
    if limit.Some? && limit.value > 0 {
      t := t + " LIMIT ?";
      ps := ps + [IntParam(limit.value)];
    } else {
      assert t == t + LimitSuffix(limit);
    }
    q := Query(t, ps);
  }

  /** Builds the `list_posts` query step by step, as the tool does. */
  method BuildListQuery(limit: Option<int>, order: string) returns (q: Query)
    ensures q == ListQuery(limit, order)
    ensures WellBound(q)
  {
    q := AppendOrderAndLimit(PostColumns, [], order, limit);
    ListQueryWellBound(limit, order);
  }

  // ---------------------------------------------------------------------------
  // filter_posts
  // ---------------------------------------------------------------------------

  /** The optional filters of `filter_posts`. */
  datatype Filters = Filters(
    author: Option<string>,
    tag: Option<string>,
    since: Option<string>,
    until: Option<string>,
    search: Option<string>)

  const AuthorClause := "LOWER(author) = LOWER(?)"
  const TagClause := "LOWER(tags) LIKE '%' || " + "LOWER(?) || '%'"
  const SinceClause := "pub_date >= ?"
  const UntilClause := "pub_date <= ?"
  const SearchClause := SearchTitle + SearchDescription + SearchContent
  const SearchTitle := "(title LIKE ?"
  const SearchDescription := " OR description LIKE ?"
  const SearchContent := " OR content LIKE ?)"

  /** One WHERE clause together with the parameters its placeholders bind. */
  datatype Condition = Condition(clause: string, params: seq<Param>)

  /** `f"%{search}%"` */
  function LikePattern(search: string): string
  {
    "%" + search + "%"
  }

  /** The condition each filter contributes when it is truthy. */
  function AuthorCondition(f: Filters): Condition
  {
    Condition(AuthorClause, [TextParam(OrEmpty(f.author))])
  }

  function TagCondition(f: Filters): Condition
  {
    Condition(TagClause, [TextParam(OrEmpty(f.tag))])
  }

  function SinceCondition(f: Filters): Condition
  {
    Condition(SinceClause, [TextParam(OrEmpty(f.since))])
  }

  function UntilCondition(f: Filters): Condition
  {
    Condition(UntilClause, [TextParam(OrEmpty(f.until))])
  }

  /** The search pattern is bound three times, once per searched column. */
  function SearchCondition(f: Filters): Condition
  {
    var like := TextParam(LikePattern(OrEmpty(f.search)));
    Condition(SearchClause, [like, like, like])
  }

  /** The condition each truthy filter contributes, in the fixed order author, tag, since, until, search. */
  function Conditions(f: Filters): seq<Condition>
  {
    var cs := AddIf([], Truthy(f.author), AuthorCondition(f));
    var cs := AddIf(cs, Truthy(f.tag), TagCondition(f));
    var cs := AddIf(cs, Truthy(f.since), SinceCondition(f));
    var cs := AddIf(cs, Truthy(f.until), UntilCondition(f));
    AddIf(cs, Truthy(f.search), SearchCondition(f))
  }

  /** The clause texts of a list of conditions, in order. */
  function ClauseTexts(cs: seq<Condition>): (r: seq<string>)
    ensures |r| == |cs|
    ensures forall k :: 0 <= k < |cs| ==> r[k] == cs[k].clause
  {
    if cs == [] then [] else [cs[0].clause] + ClauseTexts(cs[1..])
  }

  /** The parameters of a list of conditions, concatenated in order. */
  function BoundParams(cs: seq<Condition>): seq<Param>
  {
    if cs == [] then [] else cs[0].params + BoundParams(cs[1..])
  }

  /** Every condition binds one parameter per placeholder of its clause. */
  predicate Matched(cs: seq<Condition>)
  {
    forall k :: 0 <= k < |cs| ==> Placeholders(cs[k].clause) == |cs[k].params|
  }

  /** The author, tag, since and until clauses each hold one placeholder. */
  lemma AuthorPlaceholder()
    ensures Placeholders(AuthorClause) == 1
  {
    var a, b := "LOWER(author) = LOWER(", ")";
    assert AuthorClause == a + ['?'] + b;
    CountOnce('?', a, b);
  }

  lemma TagPlaceholder()
    ensures Placeholders(TagClause) == 1
  {
    var a, b := "LOWER(tags) LIKE '%' || LOWER(", ") || '%'";
    assert TagClause == a + ['?'] + b;
    CountOnce('?', a, b);
  }

  lemma SincePlaceholder()
    ensures Placeholders(SinceClause) == 1
  {
    var a: string := "pub_date >= ";
    assert SinceClause == a + ['?'] + [];
    CountOnce('?', a, []);
  }

  lemma UntilPlaceholder()
    ensures Placeholders(UntilClause) == 1
  {
    var a: string := "pub_date <= ";
    assert UntilClause == a + ['?'] + [];
    CountOnce('?', a, []);
  }

  /** The search clause holds three placeholders, one per searched column. */
  lemma SearchPlaceholders()
    ensures Placeholders(SearchClause) == 3
  {
    SearchTitlePlaceholder();
    SearchDescriptionPlaceholder();
    SearchContentPlaceholder();
    CountConcat('?', SearchTitle, SearchDescription);
    CountConcat('?', SearchTitle + SearchDescription, SearchContent);
  }

  lemma SearchTitlePlaceholder()
    ensures Placeholders(SearchTitle) == 1
  {
    var a: string := "(title LIKE ";
    assert SearchTitle == a + ['?'] + [];
    CountOnce('?', a, []);
  }

  lemma SearchDescriptionPlaceholder()
    ensures Placeholders(SearchDescription) == 1
  {
    var a: string := " OR description LIKE ";
    assert SearchDescription == a + ['?'] + [];
    CountOnce('?', a, []);
  }

  lemma SearchContentPlaceholder()
    ensures Placeholders(SearchContent) == 1
  {
    var a, b := " OR content LIKE ", ")";
    assert SearchContent == a + ['?'] + b;
    CountOnce('?', a, b);
  }

  lemma MatchedConcat(a: seq<Condition>, b: seq<Condition>)
    requires Matched(a) && Matched(b)
    ensures Matched(a + b)
  {
    forall k | 0 <= k < |a + b|
      ensures Placeholders((a + b)[k].clause) == |(a + b)[k].params|
    {
      if k >= |a| {
        assert (a + b)[k] == b[k - |a|];
      }
    }
  }

  /** The text of a filter, read only when the filter is truthy. */
  function OrEmpty(s: Option<string>): string
  {
    if s.Some? then s.value else ""
  }

  /** `cs` with the condition `c` appended when its filter is truthy. */
  function AddIf(cs: seq<Condition>, present: bool, c: Condition): seq<Condition>
  {
    if present then cs + [c] else cs
  }

  lemma AddIfMatched(cs: seq<Condition>, present: bool, c: Condition)
    requires Matched(cs)
    requires Placeholders(c.clause) == |c.params|
    ensures Matched(AddIf(cs, present, c))
  {
    MatchedConcat(cs, [c]);
  }

  /** Every condition a filter contributes binds one parameter per placeholder of its clause. */
  lemma ConditionsMatched(f: Filters)
    ensures Matched(Conditions(f))
  {
    EachConditionMatched(f);
    var cs := AddIf([], Truthy(f.author), AuthorCondition(f));
    AddIfMatched([], Truthy(f.author), AuthorCondition(f));
    AddIfMatched(cs, Truthy(f.tag), TagCondition(f));
    cs := AddIf(cs, Truthy(f.tag), TagCondition(f));
    AddIfMatched(cs, Truthy(f.since), SinceCondition(f));
    cs := AddIf(cs, Truthy(f.since), SinceCondition(f));
    AddIfMatched(cs, Truthy(f.until), UntilCondition(f));
    cs := AddIf(cs, Truthy(f.until), UntilCondition(f));
    AddIfMatched(cs, Truthy(f.search), SearchCondition(f));
  }

  /** Each filter's condition binds one parameter per placeholder of its clause. */
  lemma EachConditionMatched(f: Filters)
    ensures Placeholders(AuthorCondition(f).clause) == |AuthorCondition(f).params|
    ensures Placeholders(TagCondition(f).clause) == |TagCondition(f).params|
    ensures Placeholders(SinceCondition(f).clause) == |SinceCondition(f).params|
    ensures Placeholders(UntilCondition(f).clause) == |UntilCondition(f).params|
    ensures Placeholders(SearchCondition(f).clause) == |SearchCondition(f).params|
  {
    AuthorPlaceholder();
    TagPlaceholder();
    SincePlaceholder();
    UntilPlaceholder();
    SearchPlaceholders();
  }

  /** Matched conditions have, all together, as many placeholders as parameters. */
  lemma {:induction false} MatchedPlaceholders(cs: seq<Condition>)
    requires Matched(cs)
    ensures SumCount('?', ClauseTexts(cs)) == |BoundParams(cs)|
  {
    if cs != [] {
      MatchedPlaceholders(cs[1..]);
    }
  }

  /** The clauses and the parameters of a concatenation of conditions are those of each, in order. */
  lemma ConditionsConcat(a: seq<Condition>, b: seq<Condition>)
    ensures ClauseTexts(a + b) == ClauseTexts(a) + ClauseTexts(b)
    ensures BoundParams(a + b) == BoundParams(a) + BoundParams(b)
  {
    ClauseTextsConcat(a, b);
    BoundParamsConcat(a, b);
  }

  lemma {:induction false} ClauseTextsConcat(a: seq<Condition>, b: seq<Condition>)
    ensures ClauseTexts(a + b) == ClauseTexts(a) + ClauseTexts(b)
  {
    if a == [] {
      assert a + b == b;
    } else {
      assert (a + b)[0] == a[0];
      assert (a + b)[1..] == a[1..] + b;
      ClauseTextsConcat(a[1..], b);
    }
  }

  lemma {:induction false} BoundParamsConcat(a: seq<Condition>, b: seq<Condition>)
    ensures BoundParams(a + b) == BoundParams(a) + BoundParams(b)
  {
    if a == [] {
      assert a + b == b;
    } else {
      assert (a + b)[0] == a[0];
      assert (a + b)[1..] == a[1..] + b;
      BoundParamsConcat(a[1..], b);
    }
  }

  /** `" WHERE " + " AND ".join(where)` when there is a clause, nothing otherwise. */
  function WherePart(clauses: seq<string>): string
  {
    if clauses == [] then "" else " WHERE " + Join(" AND ", clauses)
  }

  /** The query `filter_posts` sends. */
  function FilterQuery(f: Filters, order: string, limit: Option<int>): Query
  {
    var cs := Conditions(f);
    Query(PostColumns + WherePart(ClauseTexts(cs)) + OrderClause(order) + LimitSuffix(limit),
          BoundParams(cs) + LimitParams(limit))
  }

  /** The filter query has exactly one parameter per placeholder. */
  lemma FilterQueryWellBound(f: Filters, order: string, limit: Option<int>)
    ensures WellBound(FilterQuery(f, order, limit))
  {
    var cs := Conditions(f);
    var where := WherePart(ClauseTexts(cs));
    ConditionsMatched(f);
    WherePartPlaceholders(cs);
    LimitWellBound(limit);
    PostColumnsAndOrderFree(order);
    CountConcat('?', PostColumns, where);
    CountConcat('?', PostColumns, OrderClause(order));
    CountConcat('?', PostColumns + where, OrderClause(order));
    CountConcat('?', PostColumns + where + OrderClause(order), LimitSuffix(limit));
  }

  /** The WHERE part of matched conditions holds one placeholder per bound parameter. */
  lemma WherePartPlaceholders(cs: seq<Condition>)
    requires Matched(cs)
    ensures Placeholders(WherePart(ClauseTexts(cs))) == |BoundParams(cs)|
  {
    var clauses := ClauseTexts(cs);
    MatchedPlaceholders(cs);
    if clauses != [] {
      assert Placeholders(" AND ") == 0;
      CountJoinFreeSep('?', " AND ", clauses);
      CountConcat('?', " WHERE ", Join(" AND ", clauses));
    }
  }

  /**
   * The shape of the filter query: a WHERE part exactly when some filter is
   * truthy, with one clause per truthy filter; the ORDER BY after it; the limit,
   * when positive, as the last parameter.
   */
  lemma FilterQueryShape(f: Filters, order: string, limit: Option<int>)
    ensures var cs := Conditions(f);
      && |cs| == (if Truthy(f.author) then 1 else 0) + (if Truthy(f.tag) then 1 else 0)
                 + (if Truthy(f.since) then 1 else 0) + (if Truthy(f.until) then 1 else 0)
                 + (if Truthy(f.search) then 1 else 0)
      && (WherePart(ClauseTexts(cs)) == "" <==>
            !Truthy(f.author) && !Truthy(f.tag) && !Truthy(f.since) && !Truthy(f.until) && !Truthy(f.search))
    ensures var q := FilterQuery(f, order, limit);
      PositiveLimit(limit) ==> q.params != [] && q.params[|q.params| - 1] == IntParam(limit.value)
  {
  }

  /** With no truthy filter, `filter_posts` sends the very query `list_posts` sends. */
  lemma FilterWithoutFiltersIsList(f: Filters, order: string, limit: Option<int>)
    requires !Truthy(f.author) && !Truthy(f.tag) && !Truthy(f.since) && !Truthy(f.until) && !Truthy(f.search)
    ensures FilterQuery(f, order, limit) == ListQuery(limit, order)
  {
    var cs := Conditions(f);
    assert cs == [];
    assert WherePart(ClauseTexts(cs)) == "";
    assert BoundParams(cs) == [];
    assert FilterQuery(f, order, limit).text == PostColumns + "" + OrderClause(order) + LimitSuffix(limit);
    assert PostColumns + "" == PostColumns;
  }

  /** A truthy search binds its pattern three times, once per searched column. */
  lemma SearchBindsThreePatterns(f: Filters)
    requires Truthy(f.search)
    ensures var ps := BoundParams(Conditions(f));
      var like := TextParam(LikePattern(f.search.value));
      |ps| >= 3 && ps[|ps| - 3..] == [like, like, like]
  {
    var like := TextParam(LikePattern(f.search.value));
    var cs := Conditions(f);
    var last := [Condition(SearchClause, [like, like, like])];
    var init := cs[..|cs| - 1];
    assert cs == init + last;
    ConditionsConcat(init, last);
  }

  /** The first half of `filter_posts`: one clause and its values appended per truthy filter. */
  method CollectConditions(f: Filters) returns (clauses: seq<string>, params: seq<Param>)
    ensures clauses == ClauseTexts(Conditions(f))
    ensures params == BoundParams(Conditions(f))
  {
    // the conditions appended so far, with their clauses in `clauses` and their values in `params`
    ghost var cs: seq<Condition> := [];
    clauses, params := [], [];
    clauses, params := AppendConditionIf(clauses, params, cs, Truthy(f.author), AuthorCondition(f));
    cs := AddIf(cs, Truthy(f.author), AuthorCondition(f));
    clauses, params := AppendConditionIf(clauses, params, cs, Truthy(f.tag), TagCondition(f));
    cs := AddIf(cs, Truthy(f.tag), TagCondition(f));
    clauses, params := AppendConditionIf(clauses, params, cs, Truthy(f.since), SinceCondition(f));
    cs := AddIf(cs, Truthy(f.since), SinceCondition(f));
    clauses, params := AppendConditionIf(clauses, params, cs, Truthy(f.until), UntilCondition(f));
    cs := AddIf(cs, Truthy(f.until), UntilCondition(f));
    clauses, params := AppendConditionIf(clauses, params, cs, Truthy(f.search), SearchCondition(f));
  }

  /**
   * One `if value: where.append(clause); params.append(...)` block: the clause
   * and its values are appended exactly when the filter is truthy.
   */
  method AppendConditionIf(clauses0: seq<string>, params0: seq<Param>, ghost cs: seq<Condition>,
                           present: bool, c: Condition)
    returns (clauses: seq<string>, params: seq<Param>)
    requires clauses0 == ClauseTexts(cs) && params0 == BoundParams(cs)
    ensures clauses == ClauseTexts(AddIf(cs, present, c))
    ensures params == BoundParams(AddIf(cs, present, c))
  {
    clauses, params := clauses0, params0;
    if present {
      clauses := clauses + [c.clause];
      params := params + c.params;
      ConditionsConcat(cs, [c]);
    }
  }

  /** Builds the `filter_posts` query by appending clauses and parameters, as the tool does. */
  method BuildFilterQuery(f: Filters, order: string, limit: Option<int>) returns (q: Query)
    ensures q == FilterQuery(f, order, limit)
    ensures WellBound(q)
  {
    var clauses, params := CollectConditions(f);
    var text := PostColumns;
    if clauses != [] {
      text := text + " WHERE " + Join(" AND ", clauses);
      Assoc(PostColumns, " WHERE ", Join(" AND ", clauses));
    }
    assert text == PostColumns + WherePart(clauses);
    q := AppendOrderAndLimit(text, params, order, limit);
    FilterQueryWellBound(f, order, limit);
  }

  // ---------------------------------------------------------------------------
  // rows
  // ---------------------------------------------------------------------------

  /** A row of `SELECT id, title, author, pub_date, slug, tags`; only `tags` may be NULL. */
  datatype PostRow = PostRow(id: int, title: string, author: string, pubDate: string, slug: string, tags: Option<string>)

  /** `tags if tags is not None else ""` */
  function TagsDisplay(tags: Option<string>): string
  {
    if tags.Some? then tags.value else ""
  }

  /** `f"{id_} | {pub_date} | {title} by {author} | slug={slug} | tags={tags_display}"` */
  function FormatPostRow(row: PostRow): string
  {
    IntToString(row.id) + " | " + row.pubDate + " | " + row.title + " by " + row.author
      + " | slug=" + row.slug + " | tags=" + TagsDisplay(row.tags)
  }

  /** No text field of the row contains the character `c`. */
  predicate FieldsFree(row: PostRow, c: char)
  {
    && Count(c, row.title) == 0 && Count(c, row.author) == 0 && Count(c, row.pubDate) == 0
    && Count(c, row.slug) == 0 && Count(c, TagsDisplay(row.tags)) == 0
  }

  /** The occurrences of any character in a formatted row: those of each field plus those of the separators. */
  lemma FormatPostRowCount(row: PostRow, c: char)
    ensures Count(c, FormatPostRow(row))
      == Count(c, IntToString(row.id)) + Count(c, " | ") + Count(c, row.pubDate) + Count(c, " | ")
         + Count(c, row.title) + Count(c, " by ") + Count(c, row.author) + Count(c, " | slug=")
         + Count(c, row.slug) + Count(c, " | tags=") + Count(c, TagsDisplay(row.tags))
  {
    var s0 := IntToString(row.id);
    var s1 := s0 + " | ";
    CountConcat(c, s0, " | ");
    var s2 := s1 + row.pubDate;
    CountConcat(c, s1, row.pubDate);
    var s3 := s2 + " | ";
    CountConcat(c, s2, " | ");
    var s4 := s3 + row.title;
    CountConcat(c, s3, row.title);
    var s5 := s4 + " by ";
    CountConcat(c, s4, " by ");
    var s6 := s5 + row.author;
    CountConcat(c, s5, row.author);
    var s7 := s6 + " | slug=";
    CountConcat(c, s6, " | slug=");
    var s8 := s7 + row.slug;
    CountConcat(c, s7, row.slug);
    var s9 := s8 + " | tags=";
    CountConcat(c, s8, " | tags=");
    CountConcat(c, s9, TagsDisplay(row.tags));
  }

  /** The separators of a formatted row hold four '|' between them. */
  lemma BarSeparators()
    ensures Count('|', " | ") == 1 && Count('|', " by ") == 0
    ensures Count('|', " | slug=") == 1 && Count('|', " | tags=") == 1
  {
    BarAlone();
    SlugLabelBar();
    TagsLabelBar();
  }

  lemma BarAlone()
    ensures Count('|', " | ") == 1
  {
    var a: string := " ";
    CountOnce('|', a, a);
    assert " | " == a + ['|'] + a;
  }

  lemma SlugLabelBar()
    ensures Count('|', " | slug=") == 1
  {
    var a: string, b: string := " ", " slug=";
    CountOnce('|', a, b);
    assert " | slug=" == a + ['|'] + b;
  }

  lemma TagsLabelBar()
    ensures Count('|', " | tags=") == 1
  {
    var a: string, b: string := " ", " tags=";
    CountOnce('|', a, b);
    assert " | tags=" == a + ['|'] + b;
  }

  /** The separators of a formatted row hold no newline. */
  lemma NewlineFreeSeparators()
    ensures Count('\n', " | ") == 0 && Count('\n', " by ") == 0
    ensures Count('\n', " | slug=") == 0 && Count('\n', " | tags=") == 0
  {
    assert '\n' !in " | slug=" && '\n' !in " | tags=";
  }

  /** A formatted row starts with the id and the first separator. */
  lemma FormatPostRowPrefix(row: PostRow)
    ensures var r := FormatPostRow(row);
      |IntToString(row.id)| + 3 <= |r| && r[..|IntToString(row.id)| + 3] == IntToString(row.id) + " | "
  {
    var id := IntToString(row.id);
    assert FormatPostRow(row) == (id + " | ") + (row.pubDate + " | " + row.title + " by " + row.author
      + " | slug=" + row.slug + " | tags=" + TagsDisplay(row.tags));
  }

  /** A formatted row has exactly five '|'-separated columns when no field holds a '|' of its own. */
  lemma FormatPostRowColumns(row: PostRow)
    requires FieldsFree(row, '|')
    ensures Count('|', FormatPostRow(row)) == 4
  {
    CountIntToString('|', row.id);
    BarSeparators();
    FormatPostRowCount(row, '|');
  }

  /**
   * A row whose tags are NULL is shown as if its tags were empty: the line ends
   * in "tags=" with nothing after it.
   */
  lemma FormatPostRowNoTags(row: PostRow)
    requires row.tags.None?
    ensures FormatPostRow(row) == FormatPostRow(row.(tags := Some("")))
    ensures var r := FormatPostRow(row); |r| >= 8 && r[|r| - 8..] == " | tags="
  {
    var r := FormatPostRow(row);
    var head := IntToString(row.id) + " | " + row.pubDate + " | " + row.title + " by " + row.author
      + " | slug=" + row.slug;
    assert r == head + " | tags=" + "";
  }

  /** `[_format_post_row(r) for r in rows]`: one display line per row, in row order. */
  function FormatRows(rows: seq<PostRow>): (lines: seq<string>)
    ensures |lines| == |rows|
    ensures forall k :: 0 <= k < |rows| ==> lines[k] == FormatPostRow(rows[k])
  {
    if rows == [] then []
    else
      var rest := FormatRows(rows[1..]);
      [FormatPostRow(rows[0])] + rest
  }

  /** `"\n".join(...)` of the display lines, the text the test5 tools return. */
  function RowsText(rows: seq<PostRow>): string
  {
    Join("\n", FormatRows(rows))
  }

  /** The joined text is empty exactly when there are no rows. */
  lemma RowsTextEmpty(rows: seq<PostRow>)
    ensures RowsText(rows) == "" <==> rows == []
  {
    if rows != [] {
      FormatPostRowPrefix(rows[0]);
      JoinNonEmpty("\n", FormatRows(rows));
    }
  }

  /** When no field holds a newline, the joined text has one line per row: n rows, n - 1 newlines. */
  lemma RowsTextLines(rows: seq<PostRow>)
    requires rows != []
    requires forall k :: 0 <= k < |rows| ==> FieldsFree(rows[k], '\n')
    ensures Count('\n', RowsText(rows)) == |rows| - 1
  {
    CountJoinCharSep('\n', FormatRows(rows));
    NoNewlineInRows(rows);
  }

  lemma {:induction false} NoNewlineInRows(rows: seq<PostRow>)
    requires forall k :: 0 <= k < |rows| ==> FieldsFree(rows[k], '\n')
    ensures SumCount('\n', FormatRows(rows)) == 0
  {
    if rows != [] {
      NoNewlineInRow(rows[0]);
      assert FormatRows(rows)[1..] == FormatRows(rows[1..]);
      NoNewlineInRows(rows[1..]);
    }
  }

  lemma NoNewlineInRow(row: PostRow)
    requires FieldsFree(row, '\n')
    ensures Count('\n', FormatPostRow(row)) == 0
  {
    CountIntToString('\n', row.id);
    NewlineFreeSeparators();
    FormatPostRowCount(row, '\n');
  }

  // ---------------------------------------------------------------------------
  // the tools, with the database passed in
  // ---------------------------------------------------------------------------

  /** test1 `list_posts`: the display lines of the rows the list query returns. */
  method ListPosts(db: Query -> seq<PostRow>, limit: Option<int>, order: string) returns (lines: seq<string>)
    ensures lines == FormatRows(db(ListQuery(limit, order)))
  {
    var q := BuildListQuery(limit, order);
    var rows := db(q);
    lines := FormatRows(rows);
  }

  /** test1 `filter_posts`: the display lines of the rows the filter query returns. */
  method FilterPosts(db: Query -> seq<PostRow>, f: Filters, order: string, limit: Option<int>) returns (lines: seq<string>)
    ensures lines == FormatRows(db(FilterQuery(f, order, limit)))
  {
    var q := BuildFilterQuery(f, order, limit);
    var rows := db(q);
    lines := FormatRows(rows);
  }

  /** test5 `get_blog_posts`: the list query's rows as newline-joined display lines. */
  method GetBlogPosts(db: Query -> seq<PostRow>, limit: Option<int>, order: string) returns (text: string)
    ensures text == RowsText(db(ListQuery(limit, order)))
    ensures text == "" <==> db(ListQuery(limit, order)) == []
  {
    var q := BuildListQuery(limit, order);
    var rows := db(q);
    text := Join("\n", FormatRows(rows));
    RowsTextEmpty(rows);
  }

  /** test5 `filter_posts`: the filter query's rows as newline-joined display lines. */
  method FilterPostsText(db: Query -> seq<PostRow>, f: Filters, order: string, limit: Option<int>) returns (text: string)
    ensures text == RowsText(db(FilterQuery(f, order, limit)))
    ensures text == "" <==> db(FilterQuery(f, order, limit)) == []
  {
    var q := BuildFilterQuery(f, order, limit);
    var rows := db(q);
    text := Join("\n", FormatRows(rows));
    RowsTextEmpty(rows);
  }
}
