/**
 * The two read-only pages over `get_all_produtos()`: the full stock page with
 * its three category filters, and the page of products sold out of stock.
 */
module Listing {
  import opened Wrappers
  import opened Text
  import opened Sequences
  import opened Store

  /** The three category columns the stock page filters on. */
  datatype Category = Marca | Estilo | Tipo

  /** `p.get("marca")`, `p.get("estilo")` or `p.get("tipo")`. */
  function CategoryOf(p: Produto, c: Category): Option<string> {
    match c
    case Marca => p.details.marca
    case Estilo => p.details.estilo
    case Tipo => p.details.tipo
  }

  /** `[p.get(c) for p in listing if p.get(c)]`: the values that are present and non-empty. */
  function PresentValues(listing: seq<Produto>, c: Category): (r: seq<string>)
    ensures forall v :: v in r <==> v != "" && exists p :: p in listing && CategoryOf(p, c) == Some(v)
  {
    if listing == [] then []
    else
      var rest := PresentValues(listing[1..], c);
      assert forall p :: p in listing <==> p == listing[0] || p in listing[1..];
      match CategoryOf(listing[0], c)
      case Some(v) => if v != "" then [v] + rest else rest
      case None => rest
  }

  /**
   * The choices a selectbox offers besides its "all" entry: every non-empty
   * value of the column, once, in ascending order.
   */
  function Options(listing: seq<Produto>, c: Category): (r: seq<string>)
    ensures StrictlyIncreasing(r)
    ensures forall v :: v in r <==> v != "" && exists p :: p in listing && CategoryOf(p, c) == Some(v)
  {
    SortedDistinct(PresentValues(listing, c))
  }

  /** The entry of a selectbox that leaves its column unfiltered. */
  function AllEntry(c: Category): string {
    if c == Marca then "Todas" else "Todos"
  }

  /** Whether `p` passes one selectbox set to `chosen`. */
  predicate Passes(p: Produto, c: Category, chosen: string) {
    chosen == AllEntry(c) || CategoryOf(p, c) == Some(chosen)
  }

  /** One of the three list comprehensions, applied only when the choice is not "all". */
  function FilterBy(listing: seq<Produto>, c: Category, chosen: string): (r: seq<Produto>)
    ensures forall p :: p in r <==> p in listing && Passes(p, c, chosen)
    ensures |r| <= |listing|
  {
    if chosen == AllEntry(c) then listing
    else Filter(listing, (p: Produto) => CategoryOf(p, c) == Some(chosen))
  }

  /** The three filters of the stock page, in the page's order: marca, estilo, tipo. */
  function Filtered(listing: seq<Produto>, marca: string, estilo: string, tipo: string): (r: seq<Produto>)
    ensures forall p :: p in r <==> p in listing && Passes(p, Marca, marca) && Passes(p, Estilo, estilo) && Passes(p, Tipo, tipo)
    ensures |r| <= |listing|
  {
    FilterBy(FilterBy(FilterBy(listing, Marca, marca), Estilo, estilo), Tipo, tipo)
  }

  /** Whether `p` passes all three selectboxes. */
  predicate Selected(p: Produto, marca: string, estilo: string, tipo: string) {
    Passes(p, Marca, marca) && Passes(p, Estilo, estilo) && Passes(p, Tipo, tipo)
  }

  /** One selectbox is a filter by `Passes`, whatever lambda spells it. */
  lemma FilterByIsFilter(listing: seq<Produto>, c: Category, chosen: string, keep: Produto -> bool)
    requires forall p :: keep(p) == Passes(p, c, chosen)
    ensures FilterBy(listing, c, chosen) == Filter(listing, keep)
  {
    if chosen == AllEntry(c) {
      FilterKeepsAll(listing, keep);
    } else {
      FilterSameCondition(listing, (p: Produto) => CategoryOf(p, c) == Some(chosen), keep);
    }
  }

  /**
   * Chaining the three comprehensions is one filter by the conjunction: the
   * rows kept, how many, and their order do not depend on how the page chains them.
   */
  lemma FilteredIsOneFilter(listing: seq<Produto>, marca: string, estilo: string, tipo: string)
    ensures Filtered(listing, marca, estilo, tipo) == Filter(listing, (p: Produto) => Selected(p, marca, estilo, tipo))
  {
    var m := (p: Produto) => Passes(p, Marca, marca);
    var e := (p: Produto) => Passes(p, Estilo, estilo);
    var t := (p: Produto) => Passes(p, Tipo, tipo);
    var me := (p: Produto) => m(p) && e(p);
    var l1 := FilterBy(listing, Marca, marca);
    FilterByIsFilter(listing, Marca, marca, m);
    var l2 := FilterBy(l1, Estilo, estilo);
    FilterByIsFilter(l1, Estilo, estilo, e);
    FilterTwice(listing, m, e, me);
    FilterByIsFilter(l2, Tipo, tipo, t);
    FilterTwice(listing, me, t, (p: Produto) => Selected(p, marca, estilo, tipo));
  }

  /** The filtered rows keep the name order of `get_all_produtos`. */
  lemma FilteredKeepsNameOrder(rows: seq<Produto>, marca: string, estilo: string, tipo: string)
    ensures SortedBy(Filtered(ListByNome(rows), marca, estilo, tipo), NomeLe)
  {
    FilteredIsOneFilter(ListByNome(rows), marca, estilo, tipo);
    FilterKeepsSorted(ListByNome(rows), (p: Produto) => Selected(p, marca, estilo, tipo), NomeLe);
  }

  /** Choosing an offered marca keeps at least one row: no choice yields an empty page by itself. */
  lemma OfferedMarcaIsNonEmpty(listing: seq<Produto>, v: string)
    requires v in Options(listing, Marca) && v != "Todas"
    ensures |Filtered(listing, v, "Todos", "Todos")| > 0
  {
    var p :| p in listing && CategoryOf(p, Marca) == Some(v);
    assert p in Filtered(listing, v, "Todos", "Todos");
  }

  /**
   * With every selectbox on its "all" entry the page shows the whole listing;
   * a marca spelled "Todas" therefore cannot be singled out.
   */
  lemma NoFilterShowsAll(listing: seq<Produto>)
    ensures Filtered(listing, "Todas", "Todos", "Todos") == listing
  {
  }

  // ---------------------------------------------------------------------------
  // The sold-out page
  // ---------------------------------------------------------------------------

  /** A row the sold-out page shows: sold at least once and with no stock left. */
  predicate IsSoldOut(p: Produto) {
    p.vendido == 1 && p.details.quantidade == 0
  }

  /** The products sold out of stock, in the order of `listing`. */
  function SoldOut(listing: seq<Produto>): (r: seq<Produto>)
    ensures forall p :: p in r <==> p in listing && p.vendido == 1 && p.details.quantidade == 0
  {
    Filter(listing, IsSoldOut)
  }

  /** The sold-out page lists its rows by name, as `get_all_produtos` returns them. */
  lemma SoldOutKeepsNameOrder(rows: seq<Produto>)
    ensures SortedBy(SoldOut(ListByNome(rows)), NomeLe)
  {
    FilterKeepsSorted(ListByNome(rows), IsSoldOut, NomeLe);
  }

  /** The row `Sold` leaves for `rows[i]` when its id is unique. */
  lemma SoldRowAt(rows: seq<Produto>, i: int, quantitySold: int, now: string)
    requires 0 <= i < |rows|
    ensures Sold(rows, rows[i].id, quantitySold, now)[i] in Sold(rows, rows[i].id, quantitySold, now)
    ensures Sold(rows, rows[i].id, quantitySold, now)[i].vendido == 1
    ensures Sold(rows, rows[i].id, quantitySold, now)[i].details.quantidade == rows[i].details.quantidade - quantitySold
  {
  }

  /** Selling the last unit of a product puts it on the sold-out page. */
  lemma SellingLastUnitListsIt(rows: seq<Produto>, i: int, now: string)
    requires 0 <= i < |rows| && rows[i].details.quantidade == 1
    ensures var after := Sold(rows, rows[i].id, 1, now);
            after[i] in SoldOut(ListByNome(after))
  {
    var after := Sold(rows, rows[i].id, 1, now);
    SoldRowAt(rows, i, 1, now);
    assert after[i] in multiset(after);
    assert after[i] in multiset(ListByNome(after));
  }

  /** Selling more than is in stock leaves the quantity negative, so the row is not listed. */
  lemma OversoldIsNotListed(rows: seq<Produto>, i: int, now: string)
    requires 0 <= i < |rows| && rows[i].details.quantidade == 0
    ensures var after := Sold(rows, rows[i].id, 1, now);
            after[i] !in SoldOut(ListByNome(after))
  {
    SoldRowAt(rows, i, 1, now);
  }

  /** Restocking a sold-out product takes it off the page even though it stays flagged as sold. */
  lemma RestockedIsNotListed(rows: seq<Produto>, i: int, d: Details)
    requires 0 <= i < |rows| && rows[i].vendido == 1 && d.quantidade > 0
    ensures var after := Updated(rows, rows[i].id, d);
            after[i].vendido == 1 && after[i] !in SoldOut(ListByNome(after))
  {
  }

  /** A product never sold is never on the page, whatever its stock. */
  lemma NeverSoldIsNotListed(rows: seq<Produto>, p: Produto)
    requires p.vendido == 0
    ensures p !in SoldOut(ListByNome(rows))
  {
  }
}
