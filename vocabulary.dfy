/**
 * The closed vocabularies of brands, styles and product types
 * (`MARCAS`, `ESTILOS`, `TIPOS`), and which of their entries the chat's
 * title-casing can ever produce.
 */
module Vocabulary {
  import opened Wrappers
  import opened Text

  /** `MARCAS` */
  const Marcas: seq<string> := [
    "Eudora", "O Boticário", "Jequiti", "Avon", "Mary Kay", "Natura",
    "Oui-Original-Unique-Individuel", "Pierre Alexander", "Tupperware"
  ]

  /** `ESTILOS` */
  const Estilos: seq<string> := [
    "Perfumaria", "Skincare", "Cabelo", "Corpo e Banho", "Make", "Masculinos",
    "Femininos Nina Secrets", "Marcas", "Infantil", "Casa", "Solar", "Maquiage", "Teen",
    "Kits e Presentes", "Cuidados com o Corpo", "Lançamentos", "Acessórios de Casa"
  ]

  /** `TIPOS`: a list, with "Kits de tratamento" at two positions. */
  const Tipos: seq<string> := [
    "Perfumaria masculina", "Perfumaria feminina", "Body splash", "Body spray",
    "Eau de parfum", "Desodorantes", "Perfumaria infantil", "Perfumaria vegana",
    "Familia olfativa", "Clareador de manchas", "Anti-idade", "Protetor solar facial", "Rosto",
    "Tratamento para o rosto", "Acne", "Limpeza", "Esfoliante", "Tônico facial",
    "Kits de tratamento", "Tratamento para cabelos", "Shampoo", "Condicionador",
    "Leave-in e Creme para Pentear", "Finalizador", "Modelador", "Acessórios", "Kits e looks",
    "Boca", "Olhos", "Pincéis", "Paleta", "Unhas", "Sobrancelhas", "Kits de tratamento",
    "Hidratante", "Cuidados pós-banho", "Cuidados para o banho", "Barba", "Óleo corporal",
    "Cuidados íntimos", "Unissex", "Bronzeamento", "Protetor solar", "Depilação", "Mãos",
    "Lábios", "Pés", "Pós sol", "Protetor solar corporal", "Colônias", "Estojo", "Sabonetes",
    "Creme hidratante para as mãos", "Creme hidratante para os pés", "Miniseries",
    "Kits de perfumes", "Antissinais", "Máscara", "Creme bisnaga", "Roll On Fragranciado",
    "Roll On On Duty", "Sabonete líquido", "Sabonete em barra", "Shampoo 2 em 1",
    "Spray corporal", "Booster de Tratamento", "Creme para Pentear", "Óleo de Tratamento",
    "Pré-shampoo", "Sérum de Tratamento", "Shampoo e Condicionador", "Garrafas",
    "Armazenamentos", "Micro-ondas", "Servir", "Preparo", "Infantil", "Lazer/Outdoor",
    "Presentes"
  ]

  /** What the add flow stores for a typed brand, style or type, when `vocab` lists it. */
  function Canonical(vocab: seq<string>, typed: string): (r: Option<string>)
    ensures r.Some? <==> Title(Lower(typed)) in vocab
    ensures r.Some? ==> r.value == Title(Lower(typed))
    ensures r.Some? ==> r.value in vocab && Title(r.value) == r.value
  {
    var t := Title(Lower(typed));
    if t in vocab then
      TitleImageIsFixedPoints(typed, t);
      Some(t)
    else None
  }

  /** An entry that is not its own title case is never the title case of a typed text. */
  lemma NotTitleCasedNeverAccepted(typed: string, e: string)
    requires Title(e) != e
    ensures Title(Lower(typed)) != e
  {
    TitleImageIsFixedPoints(typed, e);
  }

  /** "Corpo e Banho" and "Perfumaria masculina" can never be chosen in the chat. */
  lemma LowercaseWordsNeverAccepted(typed: string)
    ensures Title(Lower(typed)) != "Corpo e Banho"
    ensures Title(Lower(typed)) != "Perfumaria masculina"
  {
    assert Title("Corpo e Banho")[6] == 'E';
    NotTitleCasedNeverAccepted(typed, "Corpo e Banho");
    assert Title("Perfumaria masculina")[11] == 'M';
    NotTitleCasedNeverAccepted(typed, "Perfumaria masculina");
  }

  /** A brand typed in any mix of cases, such as "EudorA", is recognised. */
  lemma MixedCaseBrand()
    ensures Canonical(Marcas, "EudorA") == Some("Eudora")
  {
    assert Lower("EudorA") == "eudora";
    assert Title("eudora") == "Eudora";
    assert Marcas[0] == "Eudora";
  }

  /** An accented brand typed in lower case, "o boticário", is recognised. */
  lemma LowerCaseAccentedBrand()
    ensures Canonical(Marcas, "o boticário") == Some("O Boticário")
  {
    assert Lower("o boticário") == "o boticário";
    assert Title("o boticário") == "O Boticário";
    assert Marcas[1] == "O Boticário";
  }
}
