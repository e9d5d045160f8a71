/**
 * The two tables of the shop's database, `produtos` and `users`, held in
 * memory. Each operation is one SQL statement; its effect on the rows is a
 * function here, and `Database` applies it in place.
 *
 * Rows are kept in ascending `id` order, as SQLite's rowid tree keeps them.
 * `lastProdutoId` and `lastUserId` play the part of `sqlite_sequence`: with
 * AUTOINCREMENT a new row gets one more than the largest id ever issued.
 */
module Store {
  import opened Wrappers
  import opened Text
  import opened Sequences

  /**
   * A Python `float` as `sqlite3` binds it: a number, or NaN, which SQLite
   * stores as NULL.
   */
  datatype Float = Number(x: real) | NaN

  /** SQLite's `INTEGER` range; `sqlite3` raises OverflowError for a Python `int` outside it. */
  const MinInteger: int := -0x8000_0000_0000_0000
  const MaxInteger: int := 0x7fff_ffff_ffff_ffff

  predicate IsInteger64(n: int) {
    MinInteger <= n <= MaxInteger
  }

  /** The eight columns a caller supplies to `add_produto` and `update_produto`. */
  datatype Details = Details(
    nome: string,
    preco: Float,
    quantidade: int,
    marca: Option<string>,
    estilo: Option<string>,
    tipo: Option<string>,
    foto: Option<string>,
    dataValidade: Option<string>)

  /** A row of `produtos`. */
  datatype Produto = Produto(id: int, details: Details, vendido: int, dataUltimaVenda: Option<string>)

  /** A row of `users`; `password` holds the digest. */
  datatype User = User(id: int, username: string, password: string, role: string)

  // ---------------------------------------------------------------------------
  // Table invariants
  // ---------------------------------------------------------------------------

  /** Ids are positive, strictly increasing along the table and never above `last`. */
  ghost predicate ProdutoIdsWithin(rows: seq<Produto>, last: int) {
    && (forall i, j :: 0 <= i < j < |rows| ==> rows[i].id < rows[j].id)
    && (forall i :: 0 <= i < |rows| ==> 1 <= rows[i].id <= last)
  }

  ghost predicate UserIdsWithin(rows: seq<User>, last: int) {
    && (forall i, j :: 0 <= i < j < |rows| ==> rows[i].id < rows[j].id)
    && (forall i :: 0 <= i < |rows| ==> 1 <= rows[i].id <= last)
  }

  /** The UNIQUE constraint on `users.username`. */
  ghost predicate UsernamesUnique(rows: seq<User>) {
    forall i, j :: 0 <= i < j < |rows| ==> rows[i].username != rows[j].username
  }

  // ---------------------------------------------------------------------------
  // Row effects of the product statements
  // ---------------------------------------------------------------------------

  /** The row `add_produto` inserts: `vendido` takes its default 0, no sale date. */
  function NewProduto(id: int, d: Details): (p: Produto)
    ensures p.id == id && p.details == d && p.vendido == 0 && p.dataUltimaVenda == None
  {
    Produto(id, d, 0, None)
  }

  /**
   * The columns of `d` can be written: the quantity binds as a 64-bit integer
   * and the price is not NaN, which `preco REAL NOT NULL` would refuse.
   */
  predicate Storable(d: Details) {
    d.preco.Number? && IsInteger64(d.quantidade)
  }

  /** `SELECT * FROM produtos WHERE id = ?` */
  function FindProduto(rows: seq<Produto>, id: int): (r: Option<Produto>)
    ensures r.Some? ==> r.value in rows && r.value.id == id
    ensures r.None? <==> forall i :: 0 <= i < |rows| ==> rows[i].id != id
  {
    FindBy(rows, (p: Produto) => p.id, id)
  }

  /** In a table whose ids increase, looking up the id of a row finds that row. */
  lemma FindProdutoWithUniqueIds(rows: seq<Produto>, last: int, p: Produto)
    requires ProdutoIdsWithin(rows, last) && p in rows
    ensures FindProduto(rows, p.id) == Some(p)
  {
    var r := FindProduto(rows, p.id);
    var i :| 0 <= i < |rows| && rows[i] == p;
    var j :| 0 <= j < |rows| && rows[j] == r.value;
  }

  /** `UPDATE produtos SET <the eight columns> WHERE id = ?` */
  function Updated(rows: seq<Produto>, id: int, d: Details): (r: seq<Produto>)
    ensures |r| == |rows|
    ensures forall i :: 0 <= i < |r| ==>
      && r[i].id == rows[i].id
      && r[i].vendido == rows[i].vendido
      && r[i].dataUltimaVenda == rows[i].dataUltimaVenda
      && r[i].details == (if rows[i].id == id then d else rows[i].details)
  {
    seq(|rows|, i requires 0 <= i < |rows| => if rows[i].id == id then rows[i].(details := d) else rows[i])
  }

  /** `DELETE FROM produtos WHERE id = ?` */
  function Removed(rows: seq<Produto>, id: int): (r: seq<Produto>)
    ensures forall p :: p in r <==> p in rows && p.id != id
    ensures IsSubsequence(r, rows)
  {
    Filter(rows, (p: Produto) => p.id != id)
  }

  /** `UPDATE produtos SET quantidade = quantidade - ?, vendido = 1, data_ultima_venda = ? WHERE id = ?` */
  function Sold(rows: seq<Produto>, id: int, quantitySold: int, now: string): (r: seq<Produto>)
    ensures |r| == |rows|
    ensures forall i :: 0 <= i < |r| && rows[i].id != id ==> r[i] == rows[i]
    ensures forall i :: 0 <= i < |r| && rows[i].id == id ==>
      && r[i].id == id
      && r[i].details == rows[i].details.(quantidade := rows[i].details.quantidade - quantitySold)
      && r[i].vendido == 1
      && r[i].dataUltimaVenda == Some(now)
  {
    seq(|rows|, i requires 0 <= i < |rows| =>
      var p := rows[i];
      if p.id == id then
        p.(details := p.details.(quantidade := p.details.quantidade - quantitySold), vendido := 1, dataUltimaVenda := Some(now))
      else p)
  }

  /** An update of an id that is not in the table changes nothing. */
  lemma UpdatedUnknownId(rows: seq<Produto>, id: int, d: Details)
    requires FindProduto(rows, id).None?
    ensures Updated(rows, id, d) == rows
  {
  }

  /** A deletion of an id that is not in the table changes nothing. */
  lemma RemovedUnknownId(rows: seq<Produto>, id: int)
    requires FindProduto(rows, id).None?
    ensures Removed(rows, id) == rows
  {
    FilterKeepsAll(rows, (p: Produto) => p.id != id);
  }

  /** A sale of an id that is not in the table changes nothing. */
  lemma SoldUnknownId(rows: seq<Produto>, id: int, quantitySold: int, now: string)
    requires FindProduto(rows, id).None?
    ensures Sold(rows, id, quantitySold, now) == rows
  {
  }

  /** A sale may take the stock below zero: nothing bounds the decrement. */
  lemma OversellGoesNegative(rows: seq<Produto>, i: int, now: string)
    requires 0 <= i < |rows| && rows[i].details.quantidade == 0
    requires forall j :: 0 <= j < |rows| && j != i ==> rows[j].id != rows[i].id
    ensures FindProduto(Sold(rows, rows[i].id, 1, now), rows[i].id).Some?
    ensures FindProduto(Sold(rows, rows[i].id, 1, now), rows[i].id).value.details.quantidade == -1
  {
    var after := Sold(rows, rows[i].id, 1, now);
    var found := FindProduto(after, rows[i].id);
    assert after[i].id == rows[i].id;
    var j :| 0 <= j < |after| && after[j] == found.value;
    assert j == i;
  }

  /** A row flagged as sold stays flagged in `after`, if it is still there. */
  ghost predicate KeepsSoldFlag(before: seq<Produto>, after: seq<Produto>) {
    forall p, q :: p in before && q in after && p.id == q.id && p.vendido == 1 ==> q.vendido == 1
  }

  /** No product statement ever resets `vendido` from 1 to 0. */
  lemma SoldFlagIsSticky(rows: seq<Produto>, last: int, id: int, d: Details, quantitySold: int, now: string)
    requires ProdutoIdsWithin(rows, last)
    ensures KeepsSoldFlag(rows, rows + [NewProduto(last + 1, d)])
    ensures KeepsSoldFlag(rows, Updated(rows, id, d))
    ensures KeepsSoldFlag(rows, Removed(rows, id))
    ensures KeepsSoldFlag(rows, Sold(rows, id, quantitySold, now))
  {
    var added := rows + [NewProduto(last + 1, d)];
    forall p, q | p in rows && q in added && p.id == q.id && p.vendido == 1
      ensures q.vendido == 1
    {
      var j :| 0 <= j < |added| && added[j] == q;
      if j < |rows| {
        assert rows[j] == q;
      }
    }
    var updated := Updated(rows, id, d);
    forall p, q | p in rows && q in updated && p.id == q.id && p.vendido == 1
      ensures q.vendido == 1
    {
      var i :| 0 <= i < |rows| && rows[i] == p;
      var j :| 0 <= j < |updated| && updated[j] == q;
      assert rows[j].id == q.id;
    }
    var sold := Sold(rows, id, quantitySold, now);
    forall p, q | p in rows && q in sold && p.id == q.id && p.vendido == 1
      ensures q.vendido == 1
    {
      var i :| 0 <= i < |rows| && rows[i] == p;
      var j :| 0 <= j < |sold| && sold[j] == q;
      if rows[j].id != id {
        assert rows[j] == q;
      }
    }
    var removed := Removed(rows, id);
    forall p, q | p in rows && q in removed && p.id == q.id && p.vendido == 1
      ensures q.vendido == 1
    {
      var i :| 0 <= i < |rows| && rows[i] == p;
      var j :| 0 <= j < |rows| && rows[j] == q;
    }
  }

  // ---------------------------------------------------------------------------
  // Orderings of the two listings
  // ---------------------------------------------------------------------------

  /** `ORDER BY nome ASC` */
  predicate NomeLe(a: Produto, b: Produto) {
    StrLe(a.details.nome, b.details.nome)
  }

  /** `ORDER BY role DESC, username ASC` */
  predicate RoleDescUsernameLe(a: User, b: User) {
    StrLt(b.role, a.role) || (a.role == b.role && StrLe(a.username, b.username))
  }

  lemma NomeLeIsTotalPreorder()
    ensures TotalPreorder(NomeLe)
  {
    forall a: Produto, b: Produto
      ensures NomeLe(a, b) || NomeLe(b, a)
    {
      StrLeTotal(a.details.nome, b.details.nome);
    }
    forall a: Produto, b: Produto, c: Produto | NomeLe(a, b) && NomeLe(b, c)
      ensures NomeLe(a, c)
    {
      StrLeTransitive(a.details.nome, b.details.nome, c.details.nome);
    }
  }

  lemma RoleDescUsernameLeIsTotalPreorder()
    ensures TotalPreorder(RoleDescUsernameLe)
  {
    forall a: User, b: User
      ensures RoleDescUsernameLe(a, b) || RoleDescUsernameLe(b, a)
    {
      if a.role == b.role {
        StrLeTotal(a.username, b.username);
      } else {
        StrLtTotal(a.role, b.role);
      }
    }
    forall a: User, b: User, c: User | RoleDescUsernameLe(a, b) && RoleDescUsernameLe(b, c)
      ensures RoleDescUsernameLe(a, c)
    {
      if a.role == b.role && b.role == c.role {
        StrLeTransitive(a.username, b.username, c.username);
      } else if StrLt(b.role, a.role) && StrLt(c.role, b.role) {
        StrLeTransitive(c.role, b.role, a.role);
        if c.role == a.role {
          StrLeAntisymmetric(c.role, b.role);
        }
      }
    }
  }

  /** `SELECT * FROM produtos ORDER BY nome ASC`: every row once, names ascending. */
  function ListByNome(rows: seq<Produto>): (r: seq<Produto>)
    ensures SortedBy(r, NomeLe)
    ensures multiset(r) == multiset(rows)
  {
    NomeLeIsTotalPreorder();
    SortBy(rows, NomeLe)
  }

  /** `SELECT * FROM users ORDER BY role DESC, username ASC` */
  function ListUsers(rows: seq<User>): (r: seq<User>)
    ensures SortedBy(r, RoleDescUsernameLe)
    ensures multiset(r) == multiset(rows)
  {
    RoleDescUsernameLeIsTotalPreorder();
    SortBy(rows, RoleDescUsernameLe)
  }

  /** Descending role order puts every "staff" user before every "admin" user. */
  lemma StaffListedBeforeAdmin(rows: seq<User>, i: int, j: int)
    requires 0 <= i < |ListUsers(rows)| && 0 <= j < |ListUsers(rows)|
    requires ListUsers(rows)[i].role == "staff" && ListUsers(rows)[j].role == "admin"
    ensures i < j
  {
  }

  /** `SELECT * FROM users WHERE username = ?` */
  function FindUser(rows: seq<User>, username: string): (r: Option<User>)
    ensures r.Some? ==> r.value in rows && r.value.username == username
    ensures r.None? <==> forall i :: 0 <= i < |rows| ==> rows[i].username != username
  {
    FindBy(rows, (u: User) => u.username, username)
  }

  // ---------------------------------------------------------------------------
  // CSV import: the parsing of one row
  // ---------------------------------------------------------------------------

  /**
   * A row as `csv.DictReader` yields it: the header's columns, each with its
   * text, or None where the line had fewer fields than the header.
   */
  type CsvRow = map<string, Option<string>>

  /** What `float(...)` or `int(...)` makes of `row.get(column, 0)`. */
  datatype Cell<T> = Parsed(value: T) | ValueError | TypeError

  /** `float(row.get(column, 0))`; `parseFloat` is Python's `float` on a text. */
  function FloatCell(row: CsvRow, column: string, parseFloat: string -> Option<Float>): Cell<Float> {
    if column !in row then Parsed(Number(0.0))
    else match row[column]
      case None => TypeError
      case Some(text) => (match parseFloat(text) case Some(x) => Parsed(x) case None => ValueError)
  }

  /** `int(row.get(column, 0))` */
  function IntCell(row: CsvRow, column: string): Cell<int> {
    if column !in row then Parsed(0)
    else match row[column]
      case None => TypeError
      case Some(text) => (match ParseInt(text) case Some(n) => Parsed(n) case None => ValueError)
  }

  /** `row.get(column)` */
  function Get(row: CsvRow, column: string): Option<string> {
    if column in row then row[column] else None
  }

  /** What happens to one CSV row: skipped, inserted, or the whole import fails. */
  datatype RowOutcome =
    | Skip                 // a ValueError: `continue`
    | Abort                // an exception the loop does not catch
    | Insert(details: Details, vendido: int, dataUltimaVenda: Option<string>)

  /**
   * The body of the `for row in reader` loop for one row. The three numbers
   * are converted in order and the first failure decides: a ValueError skips
   * the row, a TypeError (a missing field) escapes the loop. Then the INSERT
   * raises, and escapes the loop too, when `nome` is missing (`NOT NULL`), the
   * price is NaN (bound as NULL, `NOT NULL`) or a number is outside 64 bits
   * (OverflowError). Any `id` column is never read.
   */
  function ParseRow(row: CsvRow, parseFloat: string -> Option<Float>): (o: RowOutcome)
    ensures var preco, quantidade, vendido := FloatCell(row, "preco", parseFloat), IntCell(row, "quantidade"), IntCell(row, "vendido");
            && (preco.ValueError? ==> o.Skip?)
            && (preco.TypeError? ==> o.Abort?)
            && (preco.Parsed? && quantidade.ValueError? ==> o.Skip?)
            && (preco.Parsed? && quantidade.TypeError? ==> o.Abort?)
            && (preco.Parsed? && quantidade.Parsed? && vendido.ValueError? ==> o.Skip?)
            && (preco.Parsed? && quantidade.Parsed? && vendido.TypeError? ==> o.Abort?)
            && (o.Insert? <==>
                  && preco.Parsed? && quantidade.Parsed? && vendido.Parsed? && Get(row, "nome").Some?
                  && preco.value.Number? && IsInteger64(quantidade.value) && IsInteger64(vendido.value))
            && (o.Insert? ==>
                  && o.details.nome == Get(row, "nome").value
                  && o.details.preco == preco.value && o.details.quantidade == quantidade.value
                  && o.vendido == vendido.value
                  && o.details.marca == Get(row, "marca") && o.details.estilo == Get(row, "estilo")
                  && o.details.tipo == Get(row, "tipo") && o.details.foto == Get(row, "foto")
                  && o.details.dataValidade == Get(row, "data_validade")
                  && o.dataUltimaVenda == Get(row, "data_ultima_venda"))
  {
    match FloatCell(row, "preco", parseFloat)
    case TypeError => Abort
    case ValueError => Skip
    case Parsed(preco) =>
      match IntCell(row, "quantidade")
      case TypeError => Abort
      case ValueError => Skip
      case Parsed(quantidade) =>
        match IntCell(row, "vendido")
        case TypeError => Abort
        case ValueError => Skip
        case Parsed(vendido) =>
          match Get(row, "nome")
          case None => Abort
          case Some(nome) =>
            var details := Details(nome, preco, quantidade, Get(row, "marca"), Get(row, "estilo"), Get(row, "tipo"),
                                   Get(row, "foto"), Get(row, "data_validade"));
            if Storable(details) && IsInteger64(vendido) then Insert(details, vendido, Get(row, "data_ultima_venda"))
            else Abort
  }

  /** The row a parsed CSV line becomes, under the id AUTOINCREMENT gives it. */
  function ImportedProduto(o: RowOutcome, id: int): Produto
    requires o.Insert?
  {
    Produto(id, o.details, o.vendido, o.dataUltimaVenda)
  }

  /**
   * The rows an import of `rows` appends, numbered from `nextId`, or None when
   * some row makes the import fail.
   */
  function Planned(rows: seq<CsvRow>, parseFloat: string -> Option<Float>, nextId: int): Option<seq<Produto>>
  {
    if rows == [] then Some([])
    else
      var rest := Planned(rows[1..], parseFloat, if ParseRow(rows[0], parseFloat).Insert? then nextId + 1 else nextId);
      match ParseRow(rows[0], parseFloat)
      case Abort => None
      case Skip => rest
      case Insert(_, _, _) =>
        Prefixed([ImportedProduto(ParseRow(rows[0], parseFloat), nextId)], rest)
  }

  /**
   * The import succeeds exactly when no row makes it fail; it then appends at
   * most one row per CSV line, with consecutive ids from `nextId`.
   */
  lemma {:induction false} PlannedShape(rows: seq<CsvRow>, parseFloat: string -> Option<Float>, nextId: int)
    ensures var r := Planned(rows, parseFloat, nextId);
            && (r.Some? <==> forall i :: 0 <= i < |rows| ==> !ParseRow(rows[i], parseFloat).Abort?)
            && (r.Some? ==> |r.value| <= |rows|)
            && (r.Some? ==> forall k :: 0 <= k < |r.value| ==> r.value[k].id == nextId + k)
  {
    if rows != [] {
      var o := ParseRow(rows[0], parseFloat);
      var next := if o.Insert? then nextId + 1 else nextId;
      PlannedShape(rows[1..], parseFloat, next);
      assert forall i :: 1 <= i < |rows| ==> rows[i] == rows[1..][i - 1];
    }
  }

  /** `o` with `prefix` in front of the rows it holds. */
  function Prefixed(prefix: seq<Produto>, o: Option<seq<Produto>>): (r: Option<seq<Produto>>)
    ensures r.Some? <==> o.Some?
    ensures r.Some? ==> |prefix| <= |r.value| && r.value[..|prefix|] == prefix && r.value[|prefix|..] == o.value
  {
    if o.None? then None else Some(prefix + o.value)
  }

  lemma PrefixedTwice(a: seq<Produto>, b: seq<Produto>, o: Option<seq<Produto>>)
    ensures Prefixed(a, Prefixed(b, o)) == Prefixed(a + b, o)
  {
    if o.Some? {
      assert a + (b + o.value) == (a + b) + o.value;
    }
  }

  /** One step of `Planned`, from the row at position `i` on. */
  lemma PlannedAt(rows: seq<CsvRow>, i: int, parseFloat: string -> Option<Float>, nextId: int)
    requires 0 <= i < |rows|
    ensures var o := ParseRow(rows[i], parseFloat);
            Planned(rows[i..], parseFloat, nextId) ==
              if o.Abort? then None
              else if o.Skip? then Planned(rows[i + 1..], parseFloat, nextId)
              else Prefixed([ImportedProduto(o, nextId)], Planned(rows[i + 1..], parseFloat, nextId + 1))
  {
    assert rows[i..][0] == rows[i];
    assert rows[i..][1..] == rows[i + 1..];
  }

  /** How the plan of the rows from position `i` on continues after the row at `i`. */
  lemma PlanStep(plan: Option<seq<Produto>>, done: seq<Produto>, rows: seq<CsvRow>, i: int,
                 parseFloat: string -> Option<Float>, nextId: int)
    requires 0 <= i < |rows| && plan == Prefixed(done, Planned(rows[i..], parseFloat, nextId))
    ensures var o := ParseRow(rows[i], parseFloat);
            && (o.Abort? ==> plan.None?)
            && (o.Skip? ==> plan == Prefixed(done, Planned(rows[i + 1..], parseFloat, nextId)))
            && (o.Insert? ==> plan == Prefixed(done + [ImportedProduto(o, nextId)], Planned(rows[i + 1..], parseFloat, nextId + 1)))
  {
    PlannedAt(rows, i, parseFloat, nextId);
    var o := ParseRow(rows[i], parseFloat);
    if o.Insert? {
      PrefixedTwice(done, [ImportedProduto(o, nextId)], Planned(rows[i + 1..], parseFloat, nextId + 1));
    }
  }

  /** A row with a fresh id above all others can be appended. */
  lemma AppendKeepsIds(rows: seq<Produto>, last: int, p: Produto)
    requires 0 <= last && ProdutoIdsWithin(rows, last) && p.id == last + 1
    ensures ProdutoIdsWithin(rows + [p], last + 1)
  {
  }

  /** A row whose numbers fail to parse contributes nothing, wherever it stands. */
  lemma {:induction false} SkippedRowLeavesNoTrace(before: seq<CsvRow>, row: CsvRow, after: seq<CsvRow>,
                                                   parseFloat: string -> Option<Float>, nextId: int)
    requires ParseRow(row, parseFloat).Skip?
    ensures Planned(before + [row] + after, parseFloat, nextId) == Planned(before + after, parseFloat, nextId)
  {
    if before == [] {
      assert (before + [row] + after)[1..] == after;
      assert before + after == after;
    } else {
      var next := if ParseRow(before[0], parseFloat).Insert? then nextId + 1 else nextId;
      SkippedRowLeavesNoTrace(before[1..], row, after, parseFloat, next);
      assert (before + [row] + after)[1..] == before[1..] + [row] + after;
      assert (before + after)[1..] == before[1..] + after;
    }
  }

  /** Whatever the `id` column holds, the import is the same: ids come from AUTOINCREMENT. */
  lemma {:induction false} IdColumnIgnored(rows: seq<CsvRow>, other: seq<CsvRow>,
                                           parseFloat: string -> Option<Float>, nextId: int)
    requires |rows| == |other|
    requires forall i :: 0 <= i < |rows| ==> rows[i] - {"id"} == other[i] - {"id"}
    ensures Planned(rows, parseFloat, nextId) == Planned(other, parseFloat, nextId)
  {
    if rows != [] {
      assert ParseRow(rows[0], parseFloat) == ParseRow(other[0], parseFloat) by {
        var a, b := rows[0], other[0];
        forall c | c != "id"
          ensures (c in a) == (c in b) && (c in a ==> a[c] == b[c])
        {
          assert (c in a) == (c in a - {"id"});
          assert (c in b) == (c in b - {"id"});
          if c in a {
            assert a[c] == (a - {"id"})[c];
            assert b[c] == (b - {"id"})[c];
          }
        }
      }
      var next := if ParseRow(rows[0], parseFloat).Insert? then nextId + 1 else nextId;
      IdColumnIgnored(rows[1..], other[1..], parseFloat, next);
    }
  }

  /** A quantity of "abc" is a ValueError, so that row is skipped entirely. */
  lemma NonNumericQuantitySkipped(row: CsvRow, parseFloat: string -> Option<Float>)
    requires "preco" in row && row["preco"].Some? && parseFloat(row["preco"].value).Some?
    requires "quantidade" in row && row["quantidade"] == Some("abc")
    ensures ParseRow(row, parseFloat).Skip?
  {
    assert Strip("abc") == "abc" by {
      StripUnspaced("abc");
    }
  }

  /** A row whose INSERT raises makes the whole import fail, wherever it stands. */
  lemma {:induction false} AbortedRowFailsTheImport(before: seq<CsvRow>, row: CsvRow, after: seq<CsvRow>,
                                                    parseFloat: string -> Option<Float>, nextId: int)
    requires ParseRow(row, parseFloat).Abort?
    ensures Planned(before + [row] + after, parseFloat, nextId).None?
  {
    if before == [] {
      assert (before + [row] + after)[0] == row;
    } else {
      var next := if ParseRow(before[0], parseFloat).Insert? then nextId + 1 else nextId;
      AbortedRowFailsTheImport(before[1..], row, after, parseFloat, next);
      assert (before + [row] + after)[1..] == before[1..] + [row] + after;
    }
  }

  /** A price that reads as NaN is never inserted: the row is skipped or the import fails. */
  lemma NotANumberPriceNeverInserted(row: CsvRow, parseFloat: string -> Option<Float>)
    requires FloatCell(row, "preco", parseFloat) == Parsed(NaN)
    ensures !ParseRow(row, parseFloat).Insert?
  {
  }

  // ---------------------------------------------------------------------------
  // The database
  // ---------------------------------------------------------------------------

  class Database {
    var produtos: seq<Produto>
    var lastProdutoId: int
    var users: seq<User>
    var lastUserId: int
    /** `hash_password`: SHA-256 hex digest, taken as given. */
    const digest: string -> string

    ghost predicate Valid()
      reads this
    {
      && 0 <= lastProdutoId && ProdutoIdsWithin(produtos, lastProdutoId)
      && 0 <= lastUserId && UserIdsWithin(users, lastUserId) && UsernamesUnique(users)
    }

    /** `create_tables()` on a fresh database file. */
    constructor(digest: string -> string)
      ensures Valid()
      ensures produtos == [] && users == [] && lastProdutoId == 0 && lastUserId == 0
      ensures this.digest == digest
    {
      produtos, lastProdutoId := [], 0;
      users, lastUserId := [], 0;
      this.digest := digest;
    }

    /**
     * `add_produto`: one new row with a fresh id, the rest of the table
     * untouched; values that cannot be written raise and change nothing (`ok` false).
     */
    method AddProduto(d: Details) returns (ok: bool)
      requires Valid()
      modifies this
      ensures Valid()
      ensures ok <==> Storable(d)
      ensures ok ==> lastProdutoId == old(lastProdutoId) + 1 && produtos == old(produtos) + [NewProduto(lastProdutoId, d)]
      ensures ok ==> forall p :: p in old(produtos) ==> p.id < lastProdutoId
      ensures !ok ==> produtos == old(produtos) && lastProdutoId == old(lastProdutoId)
      ensures users == old(users) && lastUserId == old(lastUserId)
    {
      if !Storable(d) {
        return false;
      }
      lastProdutoId := lastProdutoId + 1;
      produtos := produtos + [NewProduto(lastProdutoId, d)];
      ok := true;
    }

    /** `get_all_produtos` */
    function GetAllProdutos(): (r: seq<Produto>)
      reads this
      ensures SortedBy(r, NomeLe)
      ensures multiset(r) == multiset(produtos)
    {
      ListByNome(produtos)
    }

    /** `get_produto_by_id` */
    function GetProdutoById(id: int): (r: Option<Produto>)
      reads this
      ensures r.Some? ==> r.value in produtos && r.value.id == id
      ensures r.None? <==> forall i :: 0 <= i < |produtos| ==> produtos[i].id != id
    {
      FindProduto(produtos, id)
    }

    /**
     * `update_produto`: overwrites the eight columns of the row with that id.
     * A quantity outside 64 bits raises before the statement runs; a NaN price
     * raises only when a row is updated, at its `NOT NULL` check. Either way
     * nothing changes (`ok` false).
     */
    method UpdateProduto(id: int, d: Details) returns (ok: bool)
      requires Valid()
      modifies this
      ensures Valid()
      ensures ok <==> IsInteger64(d.quantidade) && (d.preco.Number? || FindProduto(old(produtos), id).None?)
      ensures produtos == (if ok then Updated(old(produtos), id, d) else old(produtos))
      ensures KeepsSoldFlag(old(produtos), produtos)
      ensures lastProdutoId == old(lastProdutoId)
      ensures users == old(users) && lastUserId == old(lastUserId)
    {
      SoldFlagIsSticky(produtos, lastProdutoId, id, d, 0, "");
      if !IsInteger64(d.quantidade) || (d.preco.NaN? && FindProduto(produtos, id).Some?) {
        return false;
      }
      produtos := Updated(produtos, id, d);
      ok := true;
    }

    /**
     * `delete_produto`: removes the row; `photo` is the file under `assets/`
     * the source then tries to remove (a missing file is ignored).
     */
    method DeleteProduto(id: int) returns (photo: Option<string>)
      requires Valid()
      modifies this
      ensures Valid()
      ensures produtos == Removed(old(produtos), id)
      ensures photo.Some? <==> exists p :: p in old(produtos) && p.id == id && p.details.foto.Some? && p.details.foto != Some("")
      ensures photo.Some? ==> exists p :: p in old(produtos) && p.id == id && p.details.foto == photo
      ensures lastProdutoId == old(lastProdutoId)
      ensures users == old(users) && lastUserId == old(lastUserId)
    {
      var found := FindProduto(produtos, id);
      photo := None;
      if found.Some? && found.value.details.foto.Some? && found.value.details.foto != Some("") {
        photo := found.value.details.foto;
      }
      ghost var before := produtos;
      produtos := Removed(produtos, id);
      RemovedKeepsIds(before, lastProdutoId, id);
      if found.Some? {
        // ids are distinct, so the row found is the only row with that id
        forall p | p in before && p.id == id
          ensures p == found.value
        {
          var i :| 0 <= i < |before| && before[i] == p;
          var j :| 0 <= j < |before| && before[j] == found.value;
          assert before[i].id == before[j].id;
        }
      }
    }

    /** `mark_produto_as_sold`: no lower bound on the new quantity. */
    method MarkProdutoAsSold(id: int, now: string, quantitySold: int := 1)
      requires Valid()
      modifies this
      ensures Valid()
      ensures produtos == Sold(old(produtos), id, quantitySold, now)
      ensures KeepsSoldFlag(old(produtos), produtos)
      ensures lastProdutoId == old(lastProdutoId)
      ensures users == old(users) && lastUserId == old(lastUserId)
    {
      SoldFlagIsSticky(produtos, lastProdutoId, id, Details("", Number(0.0), 0, None, None, None, None, None), quantitySold, now);
      produtos := Sold(produtos, id, quantitySold, now);
    }

    /**
     * `add_user`: stores the digest of the password, never the password; a
     * username already taken violates UNIQUE and nothing changes.
     */
    method AddUser(username: string, password: string, role: string := "staff") returns (ok: bool)
      requires Valid()
      modifies this
      ensures Valid()
      ensures ok <==> FindUser(old(users), username).None?
      ensures ok ==> (lastUserId == old(lastUserId) + 1
                      && users == old(users) + [User(lastUserId, username, digest(password), role)])
      ensures !ok ==> users == old(users) && lastUserId == old(lastUserId)
      ensures produtos == old(produtos) && lastProdutoId == old(lastProdutoId)
    {
      if FindUser(users, username).Some? {
        return false;
      }
      lastUserId := lastUserId + 1;
      users := users + [User(lastUserId, username, digest(password), role)];
      ok := true;
    }

    /** `get_user` */
    function GetUser(username: string): (r: Option<User>)
      reads this
      ensures r.Some? ==> r.value in users && r.value.username == username
      ensures r.None? <==> forall i :: 0 <= i < |users| ==> users[i].username != username
    {
      FindUser(users, username)
    }

    /** `get_all_users` */
    function GetAllUsers(): (r: seq<User>)
      reads this
      ensures SortedBy(r, RoleDescUsernameLe)
      ensures multiset(r) == multiset(users)
    {
      ListUsers(users)
    }

    /** The INSERT of one parsed CSV row. */
    method InsertImported(o: RowOutcome)
      requires Valid() && o.Insert?
      modifies this
      ensures Valid()
      ensures lastProdutoId == old(lastProdutoId) + 1
      ensures produtos == old(produtos) + [ImportedProduto(o, lastProdutoId)]
      ensures users == old(users) && lastUserId == old(lastUserId)
    {
      AppendKeepsIds(produtos, lastProdutoId, ImportedProduto(o, lastProdutoId + 1));
      lastProdutoId := lastProdutoId + 1;
      produtos := produtos + [ImportedProduto(o, lastProdutoId)];
    }

    /**
     * The body of the import loop for the row at `i`: the row is parsed and,
     * when it is complete, inserted; `abort` is an exception that ends the loop.
     */
    method ImportRow(rows: seq<CsvRow>, i: int, parseFloat: string -> Option<Float>, ghost plan: Option<seq<Produto>>,
                     ghost saved: seq<Produto>, ghost savedLast: int, ghost done: seq<Produto>)
      returns (abort: bool, ghost done': seq<Produto>)
      requires Valid() && 0 <= i < |rows|
      requires produtos == saved + done && lastProdutoId == savedLast + |done|
      requires plan == Prefixed(done, Planned(rows[i..], parseFloat, lastProdutoId + 1))
      modifies this
      ensures Valid()
      ensures abort ==> plan.None?
      ensures !abort ==> produtos == saved + done' && lastProdutoId == savedLast + |done'|
      ensures !abort ==> plan == Prefixed(done', Planned(rows[i + 1..], parseFloat, lastProdutoId + 1))
      ensures users == old(users) && lastUserId == old(lastUserId)
    {
      var outcome := ParseRow(rows[i], parseFloat);
      PlanStep(plan, done, rows, i, parseFloat, lastProdutoId + 1);
      done' := done;
      if outcome.Abort? {
        return true, done';
      } else if outcome.Insert? {
        done' := done + [ImportedProduto(outcome, lastProdutoId + 1)];
        InsertImported(outcome);
      }
      abort := false;
    }

    /**
     * `import_produtos_from_csv` over the rows already read from the file.
     * The loop inserts row by row; an exception it does not catch leaves the
     * transaction uncommitted, so the table is as it was (`ok` false).
     */
    method ImportProdutosFromCsv(rows: seq<CsvRow>, parseFloat: string -> Option<Float>) returns (ok: bool)
      requires Valid()
      modifies this
      ensures Valid()
      ensures var plan := Planned(rows, parseFloat, old(lastProdutoId) + 1);
              && (ok <==> plan.Some?)
              && (ok ==> produtos == old(produtos) + plan.value && lastProdutoId == old(lastProdutoId) + |plan.value|)
              && (!ok ==> produtos == old(produtos) && lastProdutoId == old(lastProdutoId))
      ensures users == old(users) && lastUserId == old(lastUserId)
    {
      ghost var plan := Planned(rows, parseFloat, lastProdutoId + 1);
      var savedProdutos, savedLast := produtos, lastProdutoId;
      ghost var done: seq<Produto> := [];
      var i := 0;
      assert rows[i..] == rows;
      while i < |rows|
        invariant 0 <= i <= |rows|
        invariant Valid()
        invariant users == old(users) && lastUserId == old(lastUserId)
        invariant savedProdutos == old(produtos) && savedLast == old(lastProdutoId)
        invariant produtos == savedProdutos + done && lastProdutoId == savedLast + |done|
        invariant plan == Prefixed(done, Planned(rows[i..], parseFloat, lastProdutoId + 1))
      {
        var abort;
        abort, done := ImportRow(rows, i, parseFloat, plan, savedProdutos, savedLast, done);
        if abort {
          produtos, lastProdutoId := savedProdutos, savedLast;
          return false;
        }
        i := i + 1;
      }
      assert rows[i..] == [];
      ok := true;
    }
  }

  /** Deleting keeps the remaining ids increasing and within the sequence. */
  lemma RemovedKeepsIds(rows: seq<Produto>, last: int, id: int)
    requires ProdutoIdsWithin(rows, last)
    ensures ProdutoIdsWithin(Removed(rows, id), last)
  {
    var r := Removed(rows, id);
    assert IsSubsequence(r, rows);
    SubsequenceKeepsIds(r, rows, last);
  }

  lemma {:induction false} SubsequenceKeepsIds(r: seq<Produto>, rows: seq<Produto>, last: int)
    requires IsSubsequence(r, rows) && ProdutoIdsWithin(rows, last)
    ensures ProdutoIdsWithin(r, last)
    ensures r != [] ==> rows != [] && r[0].id >= rows[0].id
    decreases |rows|
  {
    if r != [] {
      assert rows != [];
      if r[0] == rows[0] && IsSubsequence(r[1..], rows[1..]) {
        SubsequenceKeepsIds(r[1..], rows[1..], last);
        if |r| > 1 {
          assert r[1..][0].id >= rows[1..][0].id;
        }
      } else {
        SubsequenceKeepsIds(r, rows[1..], last);
      }
    }
  }
}
