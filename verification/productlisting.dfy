/** The product listing page: the filter conditions built from the search
    parameters, the optional newest-first ordering, the title and the count
    line. The product table is a sequence in stored order; how `LIKE`
    compares a name with a pattern is a parameter. */
module ProductListing {
  import opened Wrappers
  import opened Text
  import opened Seqs
  import opened SearchRoute

  /** The page's search parameters, each absent or a string. */
  datatype SearchParams = SearchParams(
    q: Option<string>,
    sort: Option<string>,
    category: Option<string>,
    excludeProductId: Option<string>)

  /** A JavaScript string is truthy when present and non-empty. */
  predicate Truthy(s: Option<string>) {
    s.Some? && s.value != ""
  }

  /** One `where` condition: the name pattern, the category, the excluded id. */
  datatype Condition = NameLike(pattern: string) | CategoryIs(categoryId: string) | IdIsNot(productId: string)

  /** A query with some non-blank character. */
  predicate HasQuery(sp: SearchParams) {
    Truthy(sp.q) && !AllWhitespace(sp.q.value)
  }

  /** That is the page's test `q && q.trim().length > 0`. */
  lemma HasQueryMeaning(sp: SearchParams)
    ensures HasQuery(sp) <==> Truthy(sp.q) && |Trim(sp.q.value)| > 0
  {
    TrimEmptyIffBlank(sp.q.GetOr(""));
  }

  /** The `LIKE` pattern for the query: `%` around the trimmed text. */
  function NamePattern(q: string): (p: string)
    ensures |p| == |Trim(q)| + 2 && p[0] == '%' && p[|p| - 1] == '%'
    ensures p[1..|p| - 1] == Trim(q)
  {
    "%" + Trim(q) + "%"
  }

  /** The condition each parameter pushes, if any. */
  function NameCondition(sp: SearchParams): (c: Option<Condition>)
    ensures c.Some? <==> HasQuery(sp)
  {
    if HasQuery(sp) then Some(NameLike(NamePattern(sp.q.value))) else None
  }

  function CategoryCondition(sp: SearchParams): (c: Option<Condition>)
    ensures c.Some? <==> Truthy(sp.category)
  {
    if Truthy(sp.category) then Some(CategoryIs(sp.category.value)) else None
  }

  function ExclusionCondition(sp: SearchParams): (c: Option<Condition>)
    ensures c.Some? <==> Truthy(sp.excludeProductId)
  {
    if Truthy(sp.excludeProductId) then Some(IdIsNot(sp.excludeProductId.value)) else None
  }

  /** `if (...) conditions.push(c)`. */
  function Pushed(c: Option<Condition>): (cs: seq<Condition>)
    ensures |cs| == if c.Some? then 1 else 0
    ensures forall x :: x in cs <==> c == Some(x)
  {
    if c.Some? then [c.value] else []
  }

  /** `conditions`, in the order they are pushed: name, category, exclusion.
      Each parameter's condition is present exactly when the parameter is
      set, and nothing else is. */
  function Conditions(sp: SearchParams): (cs: seq<Condition>)
    ensures |cs| == (if HasQuery(sp) then 1 else 0)
                  + (if Truthy(sp.category) then 1 else 0)
                  + (if Truthy(sp.excludeProductId) then 1 else 0)
    ensures HasQuery(sp) ==> cs[0] == NameLike(NamePattern(sp.q.value))
    ensures forall c :: c in cs <==>
      Some(c) == NameCondition(sp) || Some(c) == CategoryCondition(sp) || Some(c) == ExclusionCondition(sp)
  {
    Pushed(NameCondition(sp)) + Pushed(CategoryCondition(sp)) + Pushed(ExclusionCondition(sp))
  }

  /** `where`: the conjunction of the conditions, or none at all. */
  function Where(sp: SearchParams): (w: Option<seq<Condition>>)
    ensures w.None? <==> |Conditions(sp)| == 0
    ensures w.Some? ==> w.value == Conditions(sp)
  {
    var cs := Conditions(sp);
    if |cs| > 0 then Some(cs) else None
  }

  function Holds(c: Condition, p: Product, like: (string, string) -> bool): bool {
    match c
    case NameLike(pattern) => like(p.name, pattern)
    case CategoryIs(id) => p.categoryId == id
    case IdIsNot(id) => p.id != id
  }

  /** `and(...conditions)`, or no filter at all. */
  predicate Selected(w: Option<seq<Condition>>, p: Product, like: (string, string) -> bool) {
    w.None? || forall c :: c in w.value ==> Holds(c, p, like)
  }

  /** No parameters at all select every product. */
  lemma NoParamsNoFilter(p: Product, like: (string, string) -> bool)
    ensures Where(SearchParams(None, None, None, None)) == None
    ensures Selected(Where(SearchParams(None, None, None, None)), p, like)
  {
  }

  /** A pushed condition holds, or the parameter pushed none. */
  predicate HoldsIfPushed(c: Option<Condition>, p: Product, like: (string, string) -> bool) {
    c.None? || Holds(c.value, p, like)
  }

  /** The conjunction is exactly the three parameters' conditions. */
  lemma SelectedByParts(sp: SearchParams, p: Product, like: (string, string) -> bool)
    ensures Selected(Where(sp), p, like) <==>
      && HoldsIfPushed(NameCondition(sp), p, like)
      && HoldsIfPushed(CategoryCondition(sp), p, like)
      && HoldsIfPushed(ExclusionCondition(sp), p, like)
  {
    var cs := Conditions(sp);
    var n, c, e := NameCondition(sp), CategoryCondition(sp), ExclusionCondition(sp);
    if Selected(Where(sp), p, like) && |cs| > 0 {
      if n.Some? { assert n.value in cs; }
      if c.Some? { assert c.value in cs; }
      if e.Some? { assert e.value in cs; }
    }
  }

  /** A product is selected exactly when it meets each parameter that is set:
      its name matches the trimmed query (unless the query is blank), it is
      in the category, and it is not the excluded product. */
  lemma SelectedMeaning(sp: SearchParams, p: Product, like: (string, string) -> bool)
    ensures Selected(Where(sp), p, like) <==>
      && (HasQuery(sp) ==> like(p.name, NamePattern(sp.q.value)))
      && (Truthy(sp.category) ==> p.categoryId == sp.category.value)
      && (Truthy(sp.excludeProductId) ==> p.id != sp.excludeProductId.value)
  {
    SelectedByParts(sp, p, like);
  }

  /** Products in newest-first order. */
  predicate NewestFirst(ps: seq<Product>) {
    forall i, j :: 0 <= i < j < |ps| ==> ps[i].createdAt >= ps[j].createdAt
  }

  /** Puts `p` in front of the first product not newer than it. */
  function InsertNewest(p: Product, ps: seq<Product>): (r: seq<Product>)
    requires NewestFirst(ps)
    ensures NewestFirst(r)
    ensures multiset(r) == multiset(ps) + multiset{p}
    ensures |r| == |ps| + 1
    ensures r[0] == p || (|ps| > 0 && r[0] == ps[0])
  {
    if |ps| == 0 || p.createdAt >= ps[0].createdAt then [p] + ps
    else
      var rest := InsertNewest(p, ps[1..]);
      assert ps == [ps[0]] + ps[1..];
      [ps[0]] + rest
  }

  /** `orderBy: [desc(createdAt)]`: the same products, newest first. */
  function SortNewest(ps: seq<Product>): (r: seq<Product>)
    ensures NewestFirst(r)
    ensures multiset(r) == multiset(ps)
    ensures |r| == |ps|
  {
    if |ps| == 0 then []
    else
      assert ps == [ps[0]] + ps[1..];
      InsertNewest(ps[0], SortNewest(ps[1..]))
  }

  /** The ordering `sort` asks for: newest first for "new", none otherwise. */
  datatype Ordering = Unordered | CreatedAtDesc

  function OrderingOf(sort: Option<string>): (o: Ordering)
    ensures o == CreatedAtDesc <==> sort == Some("new")
  {
    if sort == Some("new") then CreatedAtDesc else Unordered
  }

  /** The row filter the `where` clause stands for. */
  function Keep(sp: SearchParams, like: (string, string) -> bool): Product -> bool {
    var w := Where(sp);
    (p: Product) => Selected(w, p, like)
  }

  /** `findMany({ where, orderBy })` over the table. */
  function Products(sp: SearchParams, table: seq<Product>, like: (string, string) -> bool): (ps: seq<Product>)
    ensures |ps| <= |table|
    ensures sp.sort == Some("new") ==> NewestFirst(ps)
  {
    var rows := Filter(table, Keep(sp, like));
    if OrderingOf(sp.sort) == CreatedAtDesc then SortNewest(rows) else rows
  }

  /** The page shows exactly the selected products, as often as the table
      holds them; newest first for `sort=new`, in table order otherwise. */
  lemma ProductsMeaning(sp: SearchParams, table: seq<Product>, like: (string, string) -> bool)
    ensures var ps := Products(sp, table, like);
      && (forall p :: p in ps <==> p in table && Selected(Where(sp), p, like))
      && multiset(ps) == multiset(Filter(table, Keep(sp, like)))
      && (sp.sort == Some("new") ==> NewestFirst(ps))
      && (sp.sort != Some("new") ==> ps == Filter(table, Keep(sp, like)))
  {
    var rows := Filter(table, Keep(sp, like));
    FilterMembers(table, Keep(sp, like));
    var ps := Products(sp, table, like);
    assert multiset(ps) == multiset(rows);
    forall p ensures p in ps <==> p in rows {
      assert p in ps <==> p in multiset(ps);
      assert p in rows <==> p in multiset(rows);
    }
  }

  const LeftQuote: char := '\U{201C}'
  const RightQuote: char := '\U{201D}'
  const Bullet: string := " \U{2022} "

  /** The heading: related products for a category without a query, the
      trimmed query when there is one, everything otherwise. */
  function Title(sp: SearchParams): (t: string)
    ensures Truthy(sp.category) && !Truthy(sp.q) ==> t == "Produtos relacionados"
    ensures Truthy(sp.q) ==> t == "Resultados para " + [LeftQuote] + Trim(sp.q.value) + [RightQuote]
    ensures !Truthy(sp.category) && !Truthy(sp.q) ==> t == "Todos os Produtos"
  {
    if Truthy(sp.category) && !Truthy(sp.q) then "Produtos relacionados"
    else if Truthy(sp.q) then "Resultados para " + [LeftQuote] + Trim(sp.q.value) + [RightQuote]
    else "Todos os Produtos"
  }

  /** A blank query filters nothing, yet the title announces results for an
      empty quotation. */
  lemma BlankQueryTitle()
    ensures var sp := SearchParams(Some("   "), None, None, None);
      && Where(sp) == None
      && Title(sp) == "Resultados para " + [LeftQuote, RightQuote]
  {
    var sp := SearchParams(Some("   "), None, None, None);
    var blank := "   ";
    assert IsWhitespace(blank[0]) && IsWhitespace(blank[1]) && IsWhitespace(blank[2]);
    assert AllWhitespace(blank);
    TrimEmptyIffBlank(blank);
    assert Trim(blank) == [];
    assert !HasQuery(sp) && Truthy(sp.q);
    assert |Conditions(sp)| == 0;
  }

  /** "item" for exactly one product, "itens" otherwise. */
  function Noun(n: nat): (w: string)
    ensures w == "item" <==> n == 1
    ensures w == "itens" <==> n != 1
  {
    if n == 1 then "item" else "itens"
  }

  /** The line under the title: the count, the noun, then a marker for each
      of "best", "new" and a category. */
  function CountLine(n: nat, sp: SearchParams): (s: string)
    ensures |s| > |DecimalString(n)| && s[..|DecimalString(n)|] == DecimalString(n)
  {
    DecimalString(n) + " " + Noun(n)
      + (if sp.sort == Some("best") then Bullet + "mais vendidos" else "")
      + (if sp.sort == Some("new") then Bullet + "novos" else "")
      + (if Truthy(sp.category) then Bullet + "relacionados" else "")
  }

  lemma CountLineExamples()
    ensures CountLine(1, SearchParams(None, None, None, None)) == "1 item"
    ensures CountLine(12, SearchParams(None, Some("new"), Some("c1"), None))
         == "12 itens" + Bullet + "novos" + Bullet + "relacionados"
  {
    assert DecimalString(12) == "12";
  }

  /** The message for an empty result, which mentions the search when a
      query was given. */
  function EmptyMessage(sp: SearchParams): (m: string)
    ensures m == "Nenhum produto encontrado para sua busca." <==> Truthy(sp.q)
    ensures m == "Nenhum produto encontrado." <==> !Truthy(sp.q)
  {
    if Truthy(sp.q) then "Nenhum produto encontrado para sua busca." else "Nenhum produto encontrado."
  }
}
