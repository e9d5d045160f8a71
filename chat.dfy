/**
 * The stock chatbot: `process_command` and the `chat_state` it keeps between
 * messages. `Respond` says what one message does (the next state, the reply
 * and the one store operation it triggers, if any); `ChatSession.Process`
 * performs it step by step on the session and the database.
 */
module Chat {
  import opened Wrappers
  import opened Text
  import opened Sequences
  import opened Dates
  import opened Vocabulary
  import opened Store

  /** The values of `chat_state["step"]`. */
  datatype Step =
    | Idle
    | AddWaitingNome
    | AddWaitingPreco
    | AddWaitingQtd
    | AddWaitingMarca
    | AddWaitingEstilo
    | AddWaitingTipo
    | AddWaitingValidade
    | SellWaitingId

  /** `chat_state["data"]`: the answers collected so far by the add flow. */
  datatype Draft = Draft(
    nome: Option<string>,
    preco: Option<Float>,
    quantidade: Option<int>,
    marca: Option<string>,
    estilo: Option<string>,
    tipo: Option<string>)

  const EmptyDraft := Draft(None, None, None, None, None, None)

  datatype ChatState = ChatState(step: Step, data: Draft)

  /** `{"step": "idle", "data": {}}`, the state of a new session and after every completed or cancelled operation. */
  const Initial := ChatState(Idle, EmptyDraft)

  /** What the bot answers, without the wording. */
  datatype Reply =
    | Cancelled
    | NothingToCancel
    | AskPreco
    | InvalidPreco
    | AskQuantidade
    | InvalidQuantidade
    | AskMarca
    | UnknownMarca
    | AskEstilo
    | UnknownEstilo
    | AskTipo
    | UnknownTipo
    | AskValidade
    | InvalidValidade
    | ProdutoAdded(nome: string)
    | AddFailed
    | SoldLastUnit(id: int, nome: string)
    | SoldOne(id: int, nome: string, remaining: int)
    | AlreadyOutOfStock(id: int)
    | IdNotFound
    | InvalidId
    | Help
    | AskNome
    | AskSellId
    | EmptyStock
    | Stock(rows: seq<Produto>)
    | NoProdutosForMarca(marca: string)
    | MarcaStock(marca: string, rows: seq<Produto>)
    | NotUnderstood

  /** The store operation a message triggers. */
  datatype Effect = NoEffect | AddProduto(details: Details) | MarkSold(id: int)

  datatype Outcome = Outcome(state: ChatState, reply: Reply, effect: Effect)

  // ---------------------------------------------------------------------------
  // The add flow and its invariant
  // ---------------------------------------------------------------------------

  /** How many answers the add flow has collected when it is at `step`. */
  function Collected(step: Step): (n: nat)
    ensures n <= 6
  {
    match step
    case AddWaitingNome => 0
    case AddWaitingPreco => 1
    case AddWaitingQtd => 2
    case AddWaitingMarca => 3
    case AddWaitingEstilo => 4
    case AddWaitingTipo => 5
    case AddWaitingValidade => 6
    case _ => 0
  }

  predicate IsAddStep(step: Step) {
    !step.Idle? && !step.SellWaitingId?
  }

  /** The step that follows `step` in the add flow; after the date the flow is over. */
  function NextAddStep(step: Step): (next: Step)
    requires IsAddStep(step)
    ensures next.Idle? || Collected(next) == Collected(step) + 1
  {
    match step
    case AddWaitingNome => AddWaitingPreco
    case AddWaitingPreco => AddWaitingQtd
    case AddWaitingQtd => AddWaitingMarca
    case AddWaitingMarca => AddWaitingEstilo
    case AddWaitingEstilo => AddWaitingTipo
    case AddWaitingTipo => AddWaitingValidade
    case AddWaitingValidade => Idle
  }

  /**
   * The session invariant: `data` holds exactly the answers of the steps
   * already passed (so it is empty when idle or waiting for an id to sell), and
   * the brand, style and type it holds are entries of their vocabularies.
   */
  ghost predicate Fits(s: ChatState) {
    var n := Collected(s.step);
    && (s.data.nome.Some? <==> n >= 1)
    && (s.data.preco.Some? <==> n >= 2)
    && (s.data.quantidade.Some? <==> n >= 3)
    && (s.data.marca.Some? <==> n >= 4)
    && (s.data.estilo.Some? <==> n >= 5)
    && (s.data.tipo.Some? <==> n >= 6)
    && (s.data.marca.Some? ==> s.data.marca.value in Marcas)
    && (s.data.estilo.Some? ==> s.data.estilo.value in Estilos)
    && (s.data.tipo.Some? ==> s.data.tipo.value in Tipos)
  }

  /** `after` still holds every answer `before` holds. */
  ghost predicate Extends(before: Draft, after: Draft) {
    && (before.nome.Some? ==> after.nome == before.nome)
    && (before.preco.Some? ==> after.preco == before.preco)
    && (before.quantidade.Some? ==> after.quantidade == before.quantidade)
    && (before.marca.Some? ==> after.marca == before.marca)
    && (before.estilo.Some? ==> after.estilo == before.estilo)
    && (before.tipo.Some? ==> after.tipo == before.tipo)
  }

  lemma InitialFits()
    ensures Fits(Initial)
  {
  }

  /** The row the add flow inserts: the answers, no photo, and the date if one was given. */
  function DraftDetails(data: Draft, validade: Option<string>): (d: Details)
    requires data.nome.Some? && data.preco.Some? && data.quantidade.Some?
    ensures d.nome == data.nome.value && d.preco == data.preco.value && d.quantidade == data.quantidade.value
    ensures d.marca == data.marca && d.estilo == data.estilo && d.tipo == data.tipo
    ensures d.foto == None && d.dataValidade == validade
  {
    Details(data.nome.value, data.preco.value, data.quantidade.value, data.marca, data.estilo, data.tipo, None, validade)
  }

  // ---------------------------------------------------------------------------
  // Text helpers
  // ---------------------------------------------------------------------------

  predicate StartsWith(s: string, prefix: string) {
    |prefix| <= |s| && s[..|prefix|] == prefix
  }

  /** `s.replace(",", ".")` */
  function CommaToDot(s: string): (r: string)
    ensures |r| == |s| && ',' !in r
    ensures forall i :: 0 <= i < |s| && s[i] != ',' ==> r[i] == s[i]
    ensures forall i :: 0 <= i < |s| && s[i] == ',' ==> r[i] == '.'
  {
    seq(|s|, i requires 0 <= i < |s| => if s[i] == ',' then '.' else s[i])
  }

  /** The expiry date the validade step stores for an answer, or None for "nao"; `Some(None)` is refused. */
  function Validade(input: string): Option<Option<string>> {
    if input == "nao" then Some(None)
    else match ParseDayMonthYear(input)
      case None => None
      case Some(d) => Some(Some(IsoFormat(d)))
  }

  /** `[p for p in listing if p.get("marca") == marca]` */
  function WithMarca(listing: seq<Produto>, marca: string): (r: seq<Produto>)
    ensures forall p :: p in r <==> p in listing && p.details.marca == Some(marca)
    ensures IsSubsequence(r, listing)
  {
    Filter(listing, (p: Produto) => p.details.marca == Some(marca))
  }

  // ---------------------------------------------------------------------------
  // One message
  // ---------------------------------------------------------------------------

  /** The sell step on an input already stripped and lower-cased: the id must be an integer. */
  function SellStep(s: ChatState, input: string, rows: seq<Produto>): (o: Outcome)
    requires Fits(s)
    ensures Fits(o.state)
    ensures o.effect.MarkSold? ==> o.state == Initial
    ensures !o.effect.AddProduto?
  {
    match ParseInt(input)
    case None => Outcome(s, InvalidId, NoEffect)
    case Some(id) => SellId(s, id, rows)
  }

  /**
   * Selling one unit of product `id`: a product in stock is sold and the
   * operation ends; a product out of stock ends it too; an unknown id, or a
   * product whose stock is negative, is reported as not found and the bot keeps
   * waiting for an id.
   */
  function SellId(s: ChatState, id: int, rows: seq<Produto>): (o: Outcome)
    requires Fits(s)
    ensures Fits(o.state)
    ensures o.effect.MarkSold? ==> o.effect.id == id && o.state == Initial
    ensures o.effect.MarkSold? ==> exists p :: p in rows && p.id == id && p.details.quantidade > 0
    ensures (forall p :: p in rows ==> p.id != id) ==> o == Outcome(s, IdNotFound, NoEffect)
    ensures !o.effect.AddProduto?
    ensures o.state == s || o.state == Initial
  {
    match FindProduto(rows, id)
    case Some(p) =>
      if p.details.quantidade > 0 then
        var reply := if p.details.quantidade == 1 then SoldLastUnit(id, p.details.nome)
                     else SoldOne(id, p.details.nome, p.details.quantidade - 1);
        Outcome(Initial, reply, MarkSold(id))
      else if p.details.quantidade == 0 then Outcome(Initial, AlreadyOutOfStock(id), NoEffect)
      else Outcome(s, IdNotFound, NoEffect)
    case None => Outcome(s, IdNotFound, NoEffect)
  }

  /** The name step: any text is taken, title-cased. */
  function AnswerNome(s: ChatState, input: string): (o: Outcome)
    requires Fits(s) && s.step == AddWaitingNome
    ensures Fits(o.state) && o.effect.NoEffect?
    ensures o.state == ChatState(AddWaitingPreco, s.data.(nome := Some(Title(input))))
  {
    Outcome(ChatState(AddWaitingPreco, s.data.(nome := Some(Title(input)))), AskPreco, NoEffect)
  }

  /** The price step: `float` of the text with its commas turned into dots. */
  function AnswerPreco(s: ChatState, input: string, parseFloat: string -> Option<Float>): (o: Outcome)
    requires Fits(s) && s.step == AddWaitingPreco
    ensures Fits(o.state) && o.effect.NoEffect?
    ensures o.state == s <==> parseFloat(CommaToDot(input)).None?
    ensures o.state != s ==> o.state == ChatState(AddWaitingQtd, s.data.(preco := parseFloat(CommaToDot(input))))
  {
    match parseFloat(CommaToDot(input))
    case None => Outcome(s, InvalidPreco, NoEffect)
    case Some(x) => Outcome(ChatState(AddWaitingQtd, s.data.(preco := Some(x))), AskQuantidade, NoEffect)
  }

  /** The quantity step: any integer, negative ones included. */
  function AnswerQuantidade(s: ChatState, input: string): (o: Outcome)
    requires Fits(s) && s.step == AddWaitingQtd
    ensures Fits(o.state) && o.effect.NoEffect?
    ensures o.state == s <==> ParseInt(input).None?
    ensures o.state != s ==> o.state == ChatState(AddWaitingMarca, s.data.(quantidade := ParseInt(input)))
  {
    var n := ParseInt(input);
    if n.None? then Outcome(s, InvalidQuantidade, NoEffect)
    else Outcome(ChatState(AddWaitingMarca, s.data.(quantidade := n)), AskMarca, NoEffect)
  }

  /** The brand step: the title case of the text, when `MARCAS` lists it. */
  function AnswerMarca(s: ChatState, typed: string): (o: Outcome)
    requires Fits(s) && s.step == AddWaitingMarca
    ensures Fits(o.state) && o.effect.NoEffect?
    ensures o.state == s <==> Title(Lower(typed)) !in Marcas
    ensures o.state != s ==> o.state == ChatState(AddWaitingEstilo, s.data.(marca := Some(Title(Lower(typed)))))
  {
    match Canonical(Marcas, typed)
    case None => Outcome(s, UnknownMarca, NoEffect)
    case Some(m) => Outcome(ChatState(AddWaitingEstilo, s.data.(marca := Some(m))), AskEstilo, NoEffect)
  }

  /** The style step: the title case of the text, when `ESTILOS` lists it. */
  function AnswerEstilo(s: ChatState, typed: string): (o: Outcome)
    requires Fits(s) && s.step == AddWaitingEstilo
    ensures Fits(o.state) && o.effect.NoEffect?
    ensures o.state == s <==> Title(Lower(typed)) !in Estilos
    ensures o.state != s ==> o.state == ChatState(AddWaitingTipo, s.data.(estilo := Some(Title(Lower(typed)))))
  {
    match Canonical(Estilos, typed)
    case None => Outcome(s, UnknownEstilo, NoEffect)
    case Some(e) => Outcome(ChatState(AddWaitingTipo, s.data.(estilo := Some(e))), AskTipo, NoEffect)
  }

  /** The type step: the title case of the text, when `TIPOS` lists it. */
  function AnswerTipo(s: ChatState, typed: string): (o: Outcome)
    requires Fits(s) && s.step == AddWaitingTipo
    ensures Fits(o.state) && o.effect.NoEffect?
    ensures o.state == s <==> Title(Lower(typed)) !in Tipos
    ensures o.state != s ==> o.state == ChatState(AddWaitingValidade, s.data.(tipo := Some(Title(Lower(typed)))))
  {
    match Canonical(Tipos, typed)
    case None => Outcome(s, UnknownTipo, NoEffect)
    case Some(t) => Outcome(ChatState(AddWaitingValidade, s.data.(tipo := Some(t))), AskValidade, NoEffect)
  }

  /**
   * The date step: "nao" or a real `DD/MM/AAAA` date completes the flow and
   * returns to the initial state; anything else is refused. The product is
   * inserted when its values can be written; otherwise `add_produto` raises,
   * the error is reported and nothing is inserted.
   */
  function AnswerValidade(s: ChatState, input: string): (o: Outcome)
    requires Fits(s) && s.step == AddWaitingValidade
    ensures Fits(o.state)
    ensures o.state == s <==> Validade(input).None?
    ensures o.state != s ==> o.state == Initial
    ensures o.effect.AddProduto? <==> Validade(input).Some? && Storable(DraftDetails(s.data, Validade(input).value))
    ensures o.effect.AddProduto? ==>
              o.reply == ProdutoAdded(s.data.nome.value) && o.effect == AddProduto(DraftDetails(s.data, Validade(input).value))
    ensures !o.effect.AddProduto? ==> o.effect.NoEffect? && o.reply == (if o.state == s then InvalidValidade else AddFailed)
  {
    match Validade(input)
    case None => Outcome(s, InvalidValidade, NoEffect)
    case Some(validade) =>
      var d := DraftDetails(s.data, validade);
      if Storable(d) then Outcome(Initial, ProdutoAdded(s.data.nome.value), AddProduto(d))
      else Outcome(Initial, AddFailed, NoEffect)
  }

  /** One answer of the add flow, on the stripped text and its lower-cased form. */
  function AddStep(s: ChatState, typed: string, input: string, parseFloat: string -> Option<Float>): (o: Outcome)
    requires Fits(s) && IsAddStep(s.step)
    ensures Fits(o.state)
    ensures o.state == s || o.state.step == NextAddStep(s.step)
    ensures o.state.step != Idle ==> Extends(s.data, o.state.data)
    ensures o.effect.AddProduto? ==> s.step == AddWaitingValidade && o.state == Initial && o.effect.details.foto == None
    ensures !o.effect.MarkSold?
  {
    match s.step
    case AddWaitingNome => AnswerNome(s, input)
    case AddWaitingPreco => AnswerPreco(s, input, parseFloat)
    case AddWaitingQtd => AnswerQuantidade(s, input)
    case AddWaitingMarca => AnswerMarca(s, typed)
    case AddWaitingEstilo => AnswerEstilo(s, typed)
    case AddWaitingTipo => AnswerTipo(s, typed)
    case AddWaitingValidade => AnswerValidade(s, input)
  }

  /** What a message does while an operation is in progress: "cancelar", or the answer the step waits for. */
  function BusyAnswer(s: ChatState, typed: string, input: string, rows: seq<Produto>, parseFloat: string -> Option<Float>): (o: Outcome)
    requires Fits(s) && s.step != Idle
    ensures Fits(o.state)
    ensures o.effect.AddProduto? ==> s.step == AddWaitingValidade && o.state == Initial && o.effect.details.foto == None
    ensures o.effect.MarkSold? ==> s.step == SellWaitingId && o.state == Initial
  {
    if input == "cancelar" then Outcome(Initial, Cancelled, NoEffect)
    else if s.step == SellWaitingId then SellStep(s, input, rows)
    else AddStep(s, typed, input, parseFloat)
  }

  /** `process_command(raw)` while an operation is in progress. */
  function BusyRespond(s: ChatState, raw: string, rows: seq<Produto>, parseFloat: string -> Option<Float>): (o: Outcome)
    requires Fits(s) && s.step != Idle
    ensures Fits(o.state)
    ensures o.effect.AddProduto? ==> s.step == AddWaitingValidade && o.state == Initial && o.effect.details.foto == None
    ensures o.effect.MarkSold? ==> s.step == SellWaitingId && o.state == Initial
  {
    BusyAnswer(s, Strip(raw), Lower(Strip(raw)), rows, parseFloat)
  }

  /**
   * The commands of the idle state, on the stripped, lower-cased text.
   * `vender <id>` sets the step to `sell_waiting_id` and answers as the nested
   * `process_command(<id>)` does in that step.
   */
  function IdleCommand(s: ChatState, input: string, rows: seq<Produto>, parseFloat: string -> Option<Float>): (o: Outcome)
    requires Fits(s) && s.step == Idle
    ensures Fits(o.state)
    ensures !o.effect.AddProduto?
    ensures o.effect.MarkSold? ==> o.state == Initial
    ensures input != "adicionar produto" && !StartsWith(input, "vender") ==> o.state == s && o.effect.NoEffect?
  {
    if input == "cancelar" then Outcome(s, NothingToCancel, NoEffect)
    else if input == "ajuda" then Outcome(s, Help, NoEffect)
    else if input == "adicionar produto" then Outcome(ChatState(AddWaitingNome, EmptyDraft), AskNome, NoEffect)
    else if StartsWith(input, "vender") then
      var parts := Words(input);
      if |parts| == 2 then BusyRespond(ChatState(SellWaitingId, s.data), parts[1], rows, parseFloat)
      else Outcome(ChatState(SellWaitingId, EmptyDraft), AskSellId, NoEffect)
    else if input == "estoque" then
      var listing := ListByNome(rows);
      Outcome(s, if listing == [] then EmptyStock else Stock(listing), NoEffect)
    else if StartsWith(input, "estoque ") then
      var target := Title(Strip(input[8..]));
      var found := WithMarca(ListByNome(rows), target);
      Outcome(s, if found == [] then NoProdutosForMarca(target) else MarcaStock(target, found), NoEffect)
    else Outcome(s, NotUnderstood, NoEffect)
  }

  /**
   * `process_command(raw)` in state `s`, with `rows` the `produtos` table and
   * `parseFloat` Python's `float` on a text.
   */
  function Respond(s: ChatState, raw: string, rows: seq<Produto>, parseFloat: string -> Option<Float>): (o: Outcome)
    requires Fits(s)
    ensures Fits(o.state)
    ensures o.effect.AddProduto? ==> s.step == AddWaitingValidade && o.state == Initial && o.effect.details.foto == None
    ensures o.effect.MarkSold? ==> o.state == Initial
  {
    if s.step == Idle then IdleCommand(s, Lower(Strip(raw)), rows, parseFloat)
    else BusyRespond(s, raw, rows, parseFloat)
  }

  /** The table after the store operation of a message. */
  function Applied(rows: seq<Produto>, lastId: int, e: Effect, now: string): seq<Produto> {
    match e
    case NoEffect => rows
    case AddProduto(d) => rows + [NewProduto(lastId + 1, d)]
    case MarkSold(id) => Sold(rows, id, 1, now)
  }

  // ---------------------------------------------------------------------------
  // The session
  // ---------------------------------------------------------------------------

  /** `st.session_state["chat_state"]` of one browser session. */
  class ChatSession {
    var step: Step
    var data: Draft

    function State(): ChatState
      reads this
    {
      ChatState(step, data)
    }

    ghost predicate Valid()
      reads this
    {
      Fits(State())
    }

    constructor()
      ensures Valid() && State() == Initial
    {
      step, data := Idle, EmptyDraft;
    }

    /**
     * `process_command(raw)`: updates the session, performs at most one store
     * operation (`now` is the time `mark_produto_as_sold` records) and answers.
     */
    method Process(raw: string, db: Database, parseFloat: string -> Option<Float>, now: string) returns (reply: Reply)
      requires Valid() && db.Valid()
      modifies this, db
      ensures Valid() && db.Valid()
      ensures var o := Respond(old(State()), raw, old(db.produtos), parseFloat);
              && State() == o.state && reply == o.reply
              && db.produtos == Applied(old(db.produtos), old(db.lastProdutoId), o.effect, now)
              && db.lastProdutoId == old(db.lastProdutoId) + (if o.effect.AddProduto? then 1 else 0)
      ensures db.users == old(db.users) && db.lastUserId == old(db.lastUserId)
    {
      if step == Idle {
        reply := ProcessCommand(Lower(Strip(raw)), db, parseFloat, now);
      } else {
        reply := ProcessBusy(raw, db, parseFloat, now);
      }
    }

    /** The idle half of `process_command`: the commands. */
    method ProcessCommand(input: string, db: Database, parseFloat: string -> Option<Float>, now: string) returns (reply: Reply)
      requires Valid() && db.Valid() && step == Idle
      modifies this, db
      ensures Valid() && db.Valid()
      ensures var o := IdleCommand(old(State()), input, old(db.produtos), parseFloat);
              && State() == o.state && reply == o.reply
              && db.produtos == Applied(old(db.produtos), old(db.lastProdutoId), o.effect, now)
              && db.lastProdutoId == old(db.lastProdutoId)
      ensures db.users == old(db.users) && db.lastUserId == old(db.lastUserId)
    {
      if input == "cancelar" {
        return NothingToCancel;
      } else if input == "ajuda" {
        return Help;
      } else if input == "adicionar produto" {
        step, data := AddWaitingNome, EmptyDraft;
        return AskNome;
      } else if StartsWith(input, "vender") {
        var parts := Words(input);
        if |parts| == 2 {
          step := SellWaitingId;
          reply := ProcessBusy(parts[1], db, parseFloat, now);
          return reply;
        }
        step, data := SellWaitingId, EmptyDraft;
        return AskSellId;
      } else if input == "estoque" {
        var produtos := db.GetAllProdutos();
        if produtos == [] {
          return EmptyStock;
        }
        return Stock(produtos);
      } else if StartsWith(input, "estoque ") {
        var target := Title(Strip(input[8..]));
        var found := WithMarca(db.GetAllProdutos(), target);
        if found == [] {
          return NoProdutosForMarca(target);
        }
        return MarcaStock(target, found);
      }
      return NotUnderstood;
    }

    /** The other half of `process_command`: "cancelar", or the answer a step waits for. */
    method ProcessBusy(raw: string, db: Database, parseFloat: string -> Option<Float>, now: string) returns (reply: Reply)
      requires Valid() && db.Valid() && step != Idle
      modifies this, db
      ensures Valid() && db.Valid()
      ensures var o := BusyRespond(old(State()), raw, old(db.produtos), parseFloat);
              && State() == o.state && reply == o.reply
              && db.produtos == Applied(old(db.produtos), old(db.lastProdutoId), o.effect, now)
              && db.lastProdutoId == old(db.lastProdutoId) + (if o.effect.AddProduto? then 1 else 0)
      ensures db.users == old(db.users) && db.lastUserId == old(db.lastUserId)
    {
      reply := ProcessAnswer(Strip(raw), Lower(Strip(raw)), db, parseFloat, now);
    }

    /** "cancelar", or the answer the current step waits for, on the stripped text and its lower-cased form. */
    method ProcessAnswer(typed: string, input: string, db: Database, parseFloat: string -> Option<Float>, now: string) returns (reply: Reply)
      requires Valid() && db.Valid() && step != Idle
      modifies this, db
      ensures Valid() && db.Valid()
      ensures var o := BusyAnswer(old(State()), typed, input, old(db.produtos), parseFloat);
              && State() == o.state && reply == o.reply
              && db.produtos == Applied(old(db.produtos), old(db.lastProdutoId), o.effect, now)
              && db.lastProdutoId == old(db.lastProdutoId) + (if o.effect.AddProduto? then 1 else 0)
      ensures db.users == old(db.users) && db.lastUserId == old(db.lastUserId)
    {
      if input == "cancelar" {
        step, data := Idle, EmptyDraft;
        return Cancelled;
      }
      if step == SellWaitingId {
        reply := ProcessSell(input, db, now);
      } else if step == AddWaitingValidade {
        reply := ProcessValidade(input, db);
      } else {
        reply := ProcessField(typed, input, parseFloat);
      }
    }

    /** The steps of the add flow before the date: each stores one answer or refuses it. */
    method ProcessField(typed: string, input: string, parseFloat: string -> Option<Float>) returns (reply: Reply)
      requires Valid() && IsAddStep(step) && step != AddWaitingValidade
      modifies this
      ensures var o := AddStep(old(State()), typed, input, parseFloat);
              State() == o.state && reply == o.reply && o.effect.NoEffect?
    {
      match step {
        case AddWaitingNome =>
          data := data.(nome := Some(Title(input)));
          step := AddWaitingPreco;
          return AskPreco;
        case AddWaitingPreco =>
          var preco := parseFloat(CommaToDot(input));
          if preco.None? {
            return InvalidPreco;
          }
          data := data.(preco := preco);
          step := AddWaitingQtd;
          return AskQuantidade;
        case AddWaitingQtd =>
          var quantidade := ParseInt(input);
          if quantidade.None? {
            return InvalidQuantidade;
          }
          data := data.(quantidade := quantidade);
          step := AddWaitingMarca;
          return AskMarca;
        case AddWaitingMarca =>
          var marca := Canonical(Marcas, typed);
          if marca.None? {
            return UnknownMarca;
          }
          data := data.(marca := marca);
          step := AddWaitingEstilo;
          return AskEstilo;
        case AddWaitingEstilo =>
          var estilo := Canonical(Estilos, typed);
          if estilo.None? {
            return UnknownEstilo;
          }
          data := data.(estilo := estilo);
          step := AddWaitingTipo;
          return AskTipo;
        case AddWaitingTipo =>
          var tipo := Canonical(Tipos, typed);
          if tipo.None? {
            return UnknownTipo;
          }
          data := data.(tipo := tipo);
          step := AddWaitingValidade;
          return AskValidade;
      }
    }

    /** The date step: "nao" or a real date, then the product is added, or the error reported, and the flow ends. */
    method ProcessValidade(input: string, db: Database) returns (reply: Reply)
      requires Valid() && db.Valid() && step == AddWaitingValidade
      modifies this, db
      ensures Valid() && db.Valid()
      ensures var o := AnswerValidade(old(State()), input);
              && State() == o.state && reply == o.reply
              && db.produtos == Applied(old(db.produtos), old(db.lastProdutoId), o.effect, "")
              && db.lastProdutoId == old(db.lastProdutoId) + (if o.effect.AddProduto? then 1 else 0)
      ensures db.users == old(db.users) && db.lastUserId == old(db.lastUserId)
    {
      var validade: Option<string> := None;
      if input != "nao" {
        var date := ParseDayMonthYear(input);
        if date.None? {
          return InvalidValidade;
        }
        validade := Some(IsoFormat(date.value));
      }
      var ok := db.AddProduto(DraftDetails(data, validade));
      var nome := data.nome.value;
      step, data := Idle, EmptyDraft;
      if !ok {
        return AddFailed;
      }
      return ProdutoAdded(nome);
    }

    /** The sell step: the id typed must be an integer. */
    method ProcessSell(input: string, db: Database, now: string) returns (reply: Reply)
      requires Valid() && db.Valid() && step == SellWaitingId
      modifies this, db
      ensures Valid() && db.Valid()
      ensures var o := SellStep(old(State()), input, old(db.produtos));
              && State() == o.state && reply == o.reply
              && db.produtos == Applied(old(db.produtos), old(db.lastProdutoId), o.effect, now)
              && db.lastProdutoId == old(db.lastProdutoId)
      ensures db.users == old(db.users) && db.lastUserId == old(db.lastUserId)
    {
      var id := ParseInt(input);
      if id.None? {
        return InvalidId;
      }
      reply := SellProduto(id.value, db, now);
    }

    /** One unit of the product `id`, when it is in stock, is sold. */
    method SellProduto(id: int, db: Database, now: string) returns (reply: Reply)
      requires Valid() && db.Valid() && step == SellWaitingId
      modifies this, db
      ensures Valid() && db.Valid()
      ensures var o := SellId(old(State()), id, old(db.produtos));
              && State() == o.state && reply == o.reply
              && db.produtos == Applied(old(db.produtos), old(db.lastProdutoId), o.effect, now)
              && db.lastProdutoId == old(db.lastProdutoId)
      ensures db.users == old(db.users) && db.lastUserId == old(db.lastUserId)
    {
      var p := db.GetProdutoById(id);
      if p.Some? && p.value.details.quantidade > 0 {
        var nome, left := p.value.details.nome, p.value.details.quantidade - 1;
        db.MarkProdutoAsSold(id, now, 1);
        step, data := Idle, EmptyDraft;
        return if left == 0 then SoldLastUnit(id, nome) else SoldOne(id, nome, left);
      } else if p.Some? && p.value.details.quantidade == 0 {
        step, data := Idle, EmptyDraft;
        return AlreadyOutOfStock(id);
      }
      return IdNotFound;
    }
  }
}
