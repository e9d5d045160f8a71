/**
 * What `process_command` promises across its branches: the global
 * "cancelar", the order of the add flow, the answers each step accepts, the
 * sell outcomes and the idle commands.
 */
module ChatProperties {
  import opened Wrappers
  import opened Text
  import opened Sequences
  import opened Dates
  import opened Vocabulary
  import opened Store
  import opened Chat

  // ---------------------------------------------------------------------------
  // Cancelling
  // ---------------------------------------------------------------------------

  /**
   * "cancelar", whatever its case and surrounding spaces, ends the operation in
   * progress and clears the collected answers; when nothing is in progress it
   * changes nothing.
   */
  lemma CancelAlwaysWins(s: ChatState, raw: string, rows: seq<Produto>, parseFloat: string -> Option<Float>)
    requires Fits(s) && Lower(Strip(raw)) == "cancelar"
    ensures var o := Respond(s, raw, rows, parseFloat);
            && o.effect.NoEffect?
            && (s.step == Idle ==> o.state == s && o.reply == NothingToCancel)
            && (s.step != Idle ==> o.state == Initial && o.reply == Cancelled)
  {
  }

  // ---------------------------------------------------------------------------
  // The add flow
  // ---------------------------------------------------------------------------

  /**
   * Each message of the add flow either is refused and changes nothing,
   * moves to the next step keeping every answer already given, or is a
   * cancellation back to the initial state.
   */
  lemma AddFlowInOrder(s: ChatState, raw: string, rows: seq<Produto>, parseFloat: string -> Option<Float>)
    requires Fits(s) && IsAddStep(s.step)
    ensures var o := Respond(s, raw, rows, parseFloat);
            || o.state == s
            || o.state == Initial
            || (o.state.step == NextAddStep(s.step) && Extends(s.data, o.state.data))
  {
  }

  /** A blank message is a valid name: the product is then named with the empty text. */
  lemma BlankNameAccepted(s: ChatState, raw: string, rows: seq<Produto>, parseFloat: string -> Option<Float>)
    requires Fits(s) && s.step == AddWaitingNome && Strip(raw) == ""
    ensures Respond(s, raw, rows, parseFloat).state == ChatState(AddWaitingPreco, s.data.(nome := Some("")))
  {
    assert Lower("") == "";
    assert Title("") == "";
  }

  /** The text `str(n)` is its own stripped, lower-cased form. */
  lemma IntToStringIsNormal(n: int)
    ensures Lower(Strip(IntToString(n))) == IntToString(n)
  {
    var t := IntToString(n);
    StripUnspaced(t);
    LowerUncased(t);
  }

  /** Any integer, negative ones included, is a valid quantity; `t` is its text `str(n)`. */
  lemma EveryIntegerIsAQuantity(s: ChatState, t: string, n: int, rows: seq<Produto>, parseFloat: string -> Option<Float>)
    requires Fits(s) && s.step == AddWaitingQtd && t == IntToString(n)
    ensures Respond(s, t, rows, parseFloat) ==
            Outcome(ChatState(AddWaitingMarca, s.data.(quantidade := Some(n))), AskMarca, NoEffect)
  {
    IntToStringIsNormal(n);
    assert t != "cancelar" by {
      assert IsDigit(t[|t| - 1]);
    }
    QuantityOfIntegerText(s, t, n);
  }

  lemma QuantityOfIntegerText(s: ChatState, t: string, n: int)
    requires Fits(s) && s.step == AddWaitingQtd && t == IntToString(n)
    ensures AnswerQuantidade(s, t) == Outcome(ChatState(AddWaitingMarca, s.data.(quantidade := Some(n))), AskMarca, NoEffect)
  {
    ParseIntOfString(n);
  }

  /** A quantity of "-3" is stored as it is. */
  lemma NegativeQuantityAccepted(s: ChatState, rows: seq<Produto>, parseFloat: string -> Option<Float>)
    requires Fits(s) && s.step == AddWaitingQtd
    ensures Respond(s, "-3", rows, parseFloat).state.data.quantidade == Some(-3)
  {
    assert IntToString(-3) == "-3";
    EveryIntegerIsAQuantity(s, "-3", -3, rows, parseFloat);
  }

  /** "Corpo e Banho" is listed in `ESTILOS` but no answer to the style step ever stores it. */
  lemma CorpoEBanhoNeverStored(s: ChatState, raw: string, rows: seq<Produto>, parseFloat: string -> Option<Float>)
    requires Fits(s) && s.step == AddWaitingEstilo
    ensures Respond(s, raw, rows, parseFloat).state.data.estilo != Some("Corpo e Banho")
  {
    LowercaseWordsNeverAccepted(Strip(raw));
  }

  /** The text a user types for a date is its own stripped, lower-cased form. */
  lemma DayMonthYearIsNormal(d: Date)
    requires IsValidDate(d)
    ensures Lower(Strip(DayMonthYear(d))) == DayMonthYear(d)
  {
    var t := DayMonthYear(d);
    assert forall k :: 0 <= k < |t| ==> IsDigit(t[k]) || t[k] == '/' by {
      var y := Pad4(d.year);
      assert IsDigit(y[0]) && IsDigit(y[1]) && IsDigit(y[2]) && IsDigit(y[3]);
    }
    StripUnspaced(t);
    LowerUncased(t);
  }

  /**
   * A real date typed as `DD/MM/AAAA` completes the flow and the bot returns to
   * its initial state. Exactly one product is added, without photo, with the
   * collected answers and the date in ISO form, when those values can be
   * written; otherwise the error is reported and nothing is added.
   */
  lemma DateCompletesTheFlow(s: ChatState, t: string, d: Date, rows: seq<Produto>, parseFloat: string -> Option<Float>)
    requires Fits(s) && s.step == AddWaitingValidade && IsValidDate(d) && t == DayMonthYear(d)
    ensures var details := DraftDetails(s.data, Some(IsoFormat(d)));
            Respond(s, t, rows, parseFloat) ==
              if Storable(details) then Outcome(Initial, ProdutoAdded(s.data.nome.value), AddProduto(details))
              else Outcome(Initial, AddFailed, NoEffect)
  {
    DayMonthYearIsNormal(d);
    ParseDayMonthYearOfFormatted(d);
    assert t != "cancelar" && t != "nao" by {
      assert t[2] == '/';
    }
  }

  /**
   * "nao", in any case, completes the flow without an expiry date: the product
   * is added when its values can be written, and the error is reported otherwise.
   */
  lemma NaoCompletesWithoutDate(s: ChatState, raw: string, rows: seq<Produto>, parseFloat: string -> Option<Float>)
    requires Fits(s) && s.step == AddWaitingValidade && Lower(Strip(raw)) == "nao"
    ensures var details := DraftDetails(s.data, None);
            Respond(s, raw, rows, parseFloat) ==
              if Storable(details) then Outcome(Initial, ProdutoAdded(s.data.nome.value), AddProduto(details))
              else Outcome(Initial, AddFailed, NoEffect)
  {
  }

  /** "nan" is a price `float` accepts, so the price step stores NaN and asks for the quantity. */
  lemma NotANumberPriceAccepted(s: ChatState, raw: string, rows: seq<Produto>, parseFloat: string -> Option<Float>)
    requires Fits(s) && s.step == AddWaitingPreco && Lower(Strip(raw)) == "nan" && parseFloat("nan") == Some(NaN)
    ensures Respond(s, raw, rows, parseFloat) == Outcome(ChatState(AddWaitingQtd, s.data.(preco := Some(NaN))), AskQuantidade, NoEffect)
  {
    assert CommaToDot("nan") == "nan";
  }

  /**
   * A draft holding a NaN price or a quantity outside 64 bits is never added:
   * every answer to the date step keeps waiting, cancels, or ends the flow
   * with the error.
   */
  lemma UnstorableDraftIsNeverAdded(s: ChatState, raw: string, rows: seq<Produto>, parseFloat: string -> Option<Float>)
    requires Fits(s) && s.step == AddWaitingValidade
    requires s.data.preco == Some(NaN) || !IsInteger64(s.data.quantidade.value)
    ensures var o := Respond(s, raw, rows, parseFloat);
            && o.effect.NoEffect?
            && (o.state == s || o.state == Initial)
            && (o.state == Initial ==> o.reply == AddFailed || o.reply == Cancelled)
  {
  }

  // ---------------------------------------------------------------------------
  // Selling
  // ---------------------------------------------------------------------------

  /**
   * In a table whose ids increase, the sell step decides by the stock of the
   * product with that id: in stock, one unit is sold and the reply tells what
   * is left; out of stock, the operation ends with nothing sold; negative
   * stock is reported as an unknown id and the bot keeps waiting.
   */
  lemma SellByStock(s: ChatState, rows: seq<Produto>, last: int, p: Produto)
    requires Fits(s) && ProdutoIdsWithin(rows, last) && p in rows
    ensures var o := SellId(s, p.id, rows);
            var q := p.details.quantidade;
            && (q > 0 ==> o.state == Initial && o.effect == MarkSold(p.id)
                          && o.reply == if q == 1 then SoldLastUnit(p.id, p.details.nome) else SoldOne(p.id, p.details.nome, q - 1))
            && (q == 0 ==> o == Outcome(Initial, AlreadyOutOfStock(p.id), NoEffect))
            && (q < 0 ==> o == Outcome(s, IdNotFound, NoEffect))
  {
    FindProdutoWithUniqueIds(rows, last, p);
  }

  /** While waiting for an id, the text `t` of an integer `n` sells by the id `n`. */
  lemma SellAnswerReadsTheId(s: ChatState, t: string, n: int, rows: seq<Produto>, parseFloat: string -> Option<Float>)
    requires Fits(s) && s.step == SellWaitingId && t == IntToString(n)
    ensures Respond(s, t, rows, parseFloat) == SellId(s, n, rows)
  {
    IntToStringIsNormal(n);
    ParseIntOfString(n);
    assert t != "cancelar" by {
      assert IsDigit(t[|t| - 1]);
    }
  }

  /** A text that is not an integer is refused and the bot keeps waiting for an id. */
  lemma NonNumericIdKeepsWaiting(s: ChatState, rows: seq<Produto>, parseFloat: string -> Option<Float>)
    requires Fits(s) && s.step == SellWaitingId
    ensures Respond(s, "abc", rows, parseFloat) == Outcome(s, InvalidId, NoEffect)
  {
    StripUnspaced("abc");
    LowerUncased("abc");
  }

  // ---------------------------------------------------------------------------
  // The idle commands
  // ---------------------------------------------------------------------------

  /**
   * An idle text starting with `vender` that splits into exactly two words is
   * the answer to its second word in the sell step, whatever the first word is.
   */
  lemma VenderTwoWords(s: ChatState, input: string, rows: seq<Produto>, parseFloat: string -> Option<Float>)
    requires Fits(s) && s.step == Idle && StartsWith(input, "vender") && |Words(input)| == 2
    ensures IdleCommand(s, input, rows, parseFloat) == BusyRespond(ChatState(SellWaitingId, s.data), Words(input)[1], rows, parseFloat)
  {
    assert input != "cancelar" && input != "ajuda" && input != "adicionar produto" by {
      assert input[0] == 'v';
    }
  }

  /** Any other idle text starting with `vender` waits for the id, with nothing collected. */
  lemma VenderAsksForId(s: ChatState, input: string, rows: seq<Produto>, parseFloat: string -> Option<Float>)
    requires Fits(s) && s.step == Idle && StartsWith(input, "vender") && |Words(input)| != 2
    ensures IdleCommand(s, input, rows, parseFloat) == Outcome(ChatState(SellWaitingId, EmptyDraft), AskSellId, NoEffect)
  {
    assert input != "cancelar" && input != "ajuda" && input != "adicionar produto" by {
      assert input[0] == 'v';
    }
  }

  /** `vender <w>`, for a word `w` without upper-case letters, is already stripped and lower-cased. */
  lemma VenderTextIsNormal(w: string)
    requires w != [] && forall k :: 0 <= k < |w| ==> !IsSpace(w[k]) && !IsUpper(w[k])
    ensures Lower(Strip("vender" + " " + w)) == "vender" + " " + w
  {
    var raw := "vender" + " " + w;
    assert forall k :: 7 <= k < |raw| ==> raw[k] == w[k - 7];
    StripUnspaced(raw);
    LowerUncased(raw);
  }

  /** `vender <w>` starts with `vender`. */
  lemma VenderTextStarts(w: string)
    ensures StartsWith("vender" + " " + w, "vender")
  {
    assert ("vender" + " " + w)[..6] == "vender";
  }

  /** `vender <w>`, for a word `w` without spaces, splits into two words. */
  lemma VenderTextSplits(w: string)
    requires w != [] && forall k :: 0 <= k < |w| ==> !IsSpace(w[k])
    ensures Words("vender" + " " + w) == ["vender", w]
  {
    WordsOfCommand("vender", w);
  }

  /** A command word followed by one argument splits into the two. */
  lemma WordsOfCommand(v: string, w: string)
    requires v == "vender"
    requires w != [] && forall k :: 0 <= k < |w| ==> !IsSpace(w[k])
    ensures Words(v + " " + w) == [v, w]
  {
    assert forall k :: 0 <= k < |v| ==> !IsSpace(v[k]);
    WordsOfTwo(v, w);
  }

  /** `vender <n>` moves to the sell step and answers there at once, as a second message `<n>` would. */
  lemma VenderWithId(n: int, rows: seq<Produto>, parseFloat: string -> Option<Float>)
    ensures IdleCommand(Initial, "vender" + " " + IntToString(n), rows, parseFloat) == SellId(ChatState(SellWaitingId, EmptyDraft), n, rows)
  {
    var t := IntToString(n);
    VenderTextStarts(t);
    VenderTextSplits(t);
    VenderTwoWords(Initial, "vender" + " " + t, rows, parseFloat);
    SellAnswerReadsTheId(ChatState(SellWaitingId, EmptyDraft), t, n, rows, parseFloat);
  }

  /** `vender <n>` for an id no product has leaves the bot waiting for an id. */
  lemma VenderUnknownIdWaits(n: int, rows: seq<Produto>, parseFloat: string -> Option<Float>)
    requires forall p :: p in rows ==> p.id != n
    ensures IdleCommand(Initial, "vender" + " " + IntToString(n), rows, parseFloat) ==
            Outcome(ChatState(SellWaitingId, EmptyDraft), IdNotFound, NoEffect)
  {
    VenderWithId(n, rows, parseFloat);
  }

  /** While an operation is in progress, the word `cancelar` ends it. */
  lemma CancelWordEndsIt(s: ChatState, w: string, rows: seq<Produto>, parseFloat: string -> Option<Float>)
    requires Fits(s) && s.step != Idle && w == "cancelar"
    ensures BusyRespond(s, w, rows, parseFloat) == Outcome(Initial, Cancelled, NoEffect)
  {
    StripUnspaced(w);
    LowerUncased(w);
  }

  /** `vender cancelar` enters the sell step and cancels it in the same message. */
  lemma VenderCancelar(w: string, rows: seq<Produto>, parseFloat: string -> Option<Float>)
    requires w == "cancelar"
    ensures IdleCommand(Initial, "vender" + " " + w, rows, parseFloat) == Outcome(Initial, Cancelled, NoEffect)
  {
    VenderTextStarts(w);
    VenderTextSplits(w);
    VenderTwoWords(Initial, "vender" + " " + w, rows, parseFloat);
    CancelWordEndsIt(ChatState(SellWaitingId, EmptyDraft), w, rows, parseFloat);
  }

  /**
   * `estoque <m>` changes nothing and lists, in name order, exactly the
   * products whose brand is the title case of the stripped `m`.
   */
  lemma EstoqueMarcaListsTheBrand(s: ChatState, input: string, rows: seq<Produto>, parseFloat: string -> Option<Float>)
    requires Fits(s) && s.step == Idle && StartsWith(input, "estoque ")
    ensures var o := IdleCommand(s, input, rows, parseFloat);
            var target := Title(Strip(input[8..]));
            && o.state == s && o.effect.NoEffect?
            && (o.reply == NoProdutosForMarca(target) || (o.reply.MarcaStock? && o.reply.marca == target))
            && (o.reply.NoProdutosForMarca? ==> forall p :: p in rows ==> p.details.marca != Some(target))
            && (o.reply.MarcaStock? ==> SortedBy(o.reply.rows, NomeLe)
                                         && forall p :: p in o.reply.rows <==> p in rows && p.details.marca == Some(target))
  {
    assert input != "estoque" && !StartsWith(input, "vender") by {
      assert input[0] == 'e';
    }
    assert input != "cancelar" && input != "ajuda" && input != "adicionar produto" by {
      assert input[1] == 's';
    }
    var target := Title(Strip(input[8..]));
    var listing := ListByNome(rows);
    forall p
      ensures p in listing <==> p in rows
    {
      assert p in listing <==> p in multiset(listing);
      assert p in rows <==> p in multiset(rows);
    }
    FilterKeepsSorted(listing, (p: Produto) => p.details.marca == Some(target), NomeLe);
  }
}
