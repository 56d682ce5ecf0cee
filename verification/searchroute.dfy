/** `GET /api/search`: the query gate, the result cap and the mapping of
    product rows to search hits. The database is the product table in its
    stored order; how `LIKE` compares a name with the pattern is a parameter. */
module SearchRoute {
  import opened Wrappers
  import opened Text
  import opened Seqs

  datatype Variant = Variant(id: string, priceInCents: int, imageUrl: string)

  datatype Product = Product(id: string, name: string, categoryId: string, createdAt: int, variants: seq<Variant>)

  /** One element of the JSON array the route answers with. */
  datatype SearchHit = SearchHit(id: string, name: string, imageUrl: Option<string>)

  /** `limit: 8`. */
  const MaxHits: nat := 8

  /** The query text after `(get("q") ?? "").trim()`. */
  function QueryText(raw: Option<string>): (q: string)
    ensures Trimmed(q)
    ensures raw.None? ==> q == ""
    ensures raw.Some? ==> q == Trim(raw.value)
  {
    Trim(raw.GetOr(""))
  }

  /** The `LIKE` pattern the route queries with, or none when the trimmed
      query is shorter than two characters and the route answers `[]` at once. */
  function SearchPattern(raw: Option<string>): (p: Option<string>)
    ensures p.None? <==> |QueryText(raw)| < 2
    ensures p.Some? ==> p.value == "%" + QueryText(raw) + "%"
  {
    var q := QueryText(raw);
    if |q| == 0 || |q| < 2 then None else Some("%" + q + "%")
  }

  /** The variant `with: { variants: { limit: 1, orderBy: asc(priceInCents) } }`
      selects: the first of the cheapest, or none when there are none. */
  function CheapestVariant(vs: seq<Variant>): (r: Option<Variant>)
    ensures r.None? <==> |vs| == 0
    ensures r.Some? ==> r.value in vs
    ensures r.Some? ==> forall i :: 0 <= i < |vs| ==> r.value.priceInCents <= vs[i].priceInCents
  {
    if |vs| == 0 then None
    else
      var rest := CheapestVariant(vs[1..]);
      if rest.None? || vs[0].priceInCents <= rest.value.priceInCents then Some(vs[0]) else rest
  }

  /** The rows whose name matches the pattern, in table order. */
  function Matching(table: seq<Product>, pattern: string, like: (string, string) -> bool): (r: seq<Product>)
    ensures |r| <= |table|
    ensures forall p :: p in r <==> p in table && like(p.name, pattern)
  {
    var keep := (p: Product) => like(p.name, pattern);
    FilterMembers(table, keep);
    Filter(table, keep)
  }

  /** `rows.map(p => ({ id, name, imageUrl: p.variants?.[0]?.imageUrl ?? null }))`. */
  function HitOf(p: Product): (h: SearchHit)
    ensures h.id == p.id && h.name == p.name
    ensures h.imageUrl.None? <==> |p.variants| == 0
    ensures h.imageUrl.Some? ==> h.imageUrl.value == CheapestVariant(p.variants).value.imageUrl
  {
    var v := CheapestVariant(p.variants);
    SearchHit(p.id, p.name, if v.Some? then Some(v.value.imageUrl) else None)
  }

  function Hits(rows: seq<Product>): (r: seq<SearchHit>)
    ensures |r| == |rows|
    ensures forall i :: 0 <= i < |rows| ==> r[i] == HitOf(rows[i])
  {
    seq(|rows|, i requires 0 <= i < |rows| => HitOf(rows[i]))
  }

  /** The route's answer: `[]` for a short query, otherwise the first eight
      matching rows, each mapped to a hit. */
  function Search(raw: Option<string>, table: seq<Product>, like: (string, string) -> bool): (r: seq<SearchHit>)
    ensures |r| <= MaxHits
    ensures SearchPattern(raw).None? ==> r == []
  {
    var p := SearchPattern(raw);
    if p.None? then []
    else
      var rows := Matching(table, p.value, like);
      var n := if |rows| <= MaxHits then |rows| else MaxHits;
      Hits(rows[..n])
  }

  /** With a long enough query the answer is exactly the first eight (or
      fewer) matching rows, in order, each mapped to its hit. */
  lemma SearchResults(raw: Option<string>, table: seq<Product>, like: (string, string) -> bool)
    requires SearchPattern(raw).Some?
    ensures var rows := Matching(table, SearchPattern(raw).value, like);
      var r := Search(raw, table, like);
      && |r| == (if |rows| <= MaxHits then |rows| else MaxHits)
      && (forall i :: 0 <= i < |r| ==> r[i] == HitOf(rows[i]))
  {
  }

  /** A missing, blank or one-character query never reaches the database,
      however the table looks. */
  lemma ShortQueryNotSearched(raw: Option<string>, table: seq<Product>, like: (string, string) -> bool)
    requires raw.None? || AllWhitespace(raw.value) || |raw.value| < 2
    ensures Search(raw, table, like) == []
  {
    TrimEmptyIffBlank(raw.GetOr(""));
  }

  /** Any two characters other than whitespace are searched for, with the
      pattern `%` + query + `%`. */
  lemma TwoLettersSearched(a: char, b: char)
    requires !IsWhitespace(a) && !IsWhitespace(b)
    ensures SearchPattern(Some([a, b])) == Some("%" + [a, b] + "%")
  {
    TrimOfTrimmed([a, b]);
  }
}
