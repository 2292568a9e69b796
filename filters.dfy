/**
 * The filter predicate of the product listing: a conjunction of clauses,
 * each rendered as a fixed fragment of SQL text with `?` placeholders and
 * the values bound to those placeholders, in order. The fragment texts are
 * a parameter: the handler spells them out once for each of its two
 * queries.
 */
module Filters {
  import opened SqlText

  /** A price as `parseFloat` produced it; the model never interprets it. */
  type Price

  /** A value bound to a `?` placeholder. */
  datatype Param = Text(text: string) | Number(price: Price)

  /** One conjunct of the predicate. */
  datatype Filter =
    | CategoryIs(category: string)
    | PriceAtLeast(min: Price)
    | PriceAtMost(max: Price)
    | Matches(search: string)

  /** The pattern bound for a search term: the term wrapped in `%` wildcards. */
  function SearchPattern(search: string): (p: string)
    ensures |p| == |search| + 2 && p[0] == '%' && p[|p| - 1] == '%'
    ensures p[1..|p| - 1] == search
  {
    "%" + search + "%"
  }

  /** The SQL fragment appended for each kind of conjunct. */
  datatype Fragments = Fragments(category: string, minPrice: string, maxPrice: string, search: string)

  /**
   * Each fragment holds exactly as many `?` as its block binds values: one
   * for the category and each price bound, three for the search.
   */
  predicate MarksMatchValues(fr: Fragments)
  {
    && Placeholders(fr.category) == 1
    && Placeholders(fr.minPrice) == 1
    && Placeholders(fr.maxPrice) == 1
    && Placeholders(fr.search) == 3
  }

  /** The SQL fragment a conjunct appends to the query text. */
  function ClauseText(fr: Fragments, f: Filter): string
  {
    match f
    case CategoryIs(_) => fr.category
    case PriceAtLeast(_) => fr.minPrice
    case PriceAtMost(_) => fr.maxPrice
    case Matches(_) => fr.search
  }

  /** The values a conjunct binds, one per placeholder of its fragment. */
  function ClauseParams(f: Filter): seq<Param>
  {
    match f
    case CategoryIs(c) => [Text(c)]
    case PriceAtLeast(p) => [Number(p)]
    case PriceAtMost(p) => [Number(p)]
    case Matches(s) => [Text(SearchPattern(s)), Text(SearchPattern(s)), Text(SearchPattern(s))]
  }

  /** The text `head` followed by the fragments of the conjuncts, appended in order. */
  function Render(fr: Fragments, head: string, fs: seq<Filter>): string
  {
    if fs == [] then head else Render(fr, head, fs[..|fs| - 1]) + ClauseText(fr, fs[|fs| - 1])
  }

  /** The values bound by a conjunction, in placeholder order. */
  function PredicateParams(fs: seq<Filter>): seq<Param>
  {
    if fs == [] then [] else PredicateParams(fs[..|fs| - 1]) + ClauseParams(fs[|fs| - 1])
  }

  /** Each fragment holds exactly as many placeholders as the conjunct binds values. */
  lemma ClausePlaceholders(fr: Fragments, f: Filter)
    requires MarksMatchValues(fr)
    ensures Placeholders(ClauseText(fr, f)) == |ClauseParams(f)|
  {
  }

  /** Appending one conjunct appends its fragment to the text. */
  lemma RenderSnoc(fr: Fragments, head: string, fs: seq<Filter>, f: Filter)
    ensures Render(fr, head, fs + [f]) == Render(fr, head, fs) + ClauseText(fr, f)
  {
    assert (fs + [f])[..|fs|] == fs;
  }

  /** Appending one conjunct appends its values to the parameters. */
  lemma ParamsSnoc(fs: seq<Filter>, f: Filter)
    ensures PredicateParams(fs + [f]) == PredicateParams(fs) + ClauseParams(f)
  {
    assert (fs + [f])[..|fs|] == fs;
  }

  /**
   * The rendered text holds the head's placeholders plus exactly one per
   * value the conjuncts bind.
   */
  lemma {:induction false} RenderPlaceholders(fr: Fragments, head: string, fs: seq<Filter>)
    requires MarksMatchValues(fr)
    ensures Placeholders(Render(fr, head, fs)) == Placeholders(head) + |PredicateParams(fs)|
  {
    if fs != [] {
      var fs', f := fs[..|fs| - 1], fs[|fs| - 1];
      RenderPlaceholders(fr, head, fs');
      ClausePlaceholders(fr, f);
      PlaceholdersAppend(Render(fr, head, fs'), ClauseText(fr, f));
    }
  }

  lemma AppendAssociative<T>(a: seq<T>, b: seq<T>, c: seq<T>)
    ensures (a + b) + c == a + (b + c)
  {
  }

  /**
   * Rendering after a head is the head followed by the rendering of the
   * predicate alone: two queries with different heads and the same
   * conjuncts carry the same predicate text.
   */
  lemma {:induction false} RenderAfterHead(fr: Fragments, head: string, fs: seq<Filter>)
    ensures Render(fr, head, fs) == head + Render(fr, "", fs)
  {
    if fs == [] {
      assert head + "" == head;
    } else {
      var fs', t := fs[..|fs| - 1], ClauseText(fr, fs[|fs| - 1]);
      RenderAfterHead(fr, head, fs');
      var r := Render(fr, "", fs');
      AppendAssociative(head, r, t);
    }
  }

  /** The values of two conjunctions laid end to end. */
  lemma {:induction false} PredicateParamsAppend(fs: seq<Filter>, gs: seq<Filter>)
    ensures PredicateParams(fs + gs) == PredicateParams(fs) + PredicateParams(gs)
    decreases |gs|
  {
    if gs == [] {
      assert fs + gs == fs;
    } else {
      var gs' := gs[..|gs| - 1];
      assert (fs + gs)[..|fs + gs| - 1] == fs + gs';
      assert (fs + gs)[|fs + gs| - 1] == gs[|gs| - 1];
      PredicateParamsAppend(fs, gs');
      AppendAssociative(PredicateParams(fs), PredicateParams(gs'), ClauseParams(gs[|gs| - 1]));
    }
  }

  /**
   * Which kind of conjunct a filter is, forgetting the value it binds: one
   * number per constructor, so that two filters can be compared by kind.
   */
  function Kind(f: Filter): nat
  {
    match f
    case CategoryIs(_) => 0
    case PriceAtLeast(_) => 1
    case PriceAtMost(_) => 2
    case Matches(_) => 3
  }

  lemma SameKindSameText(fr: Fragments, f: Filter, g: Filter)
    requires Kind(f) == Kind(g)
    ensures ClauseText(fr, f) == ClauseText(fr, g)
  {
  }

  /**
   * The predicate text depends only on which kinds of conjunct are present:
   * no category, price or search value reaches the SQL text, they are only
   * bound to placeholders.
   */
  lemma {:induction false} TextIgnoresValues(fr: Fragments, head: string, fs: seq<Filter>, gs: seq<Filter>)
    requires |fs| == |gs|
    requires forall i :: 0 <= i < |fs| ==> Kind(fs[i]) == Kind(gs[i])
    ensures Render(fr, head, fs) == Render(fr, head, gs)
  {
    if fs != [] {
      var n := |fs| - 1;
      TextIgnoresValues(fr, head, fs[..n], gs[..n]);
      SameKindSameText(fr, fs[n], gs[n]);
    }
  }
}
