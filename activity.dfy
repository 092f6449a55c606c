/**
 * `categorizar_atividade`: the main activity of a company, lower-cased, falls
 * into the first category of an ordered keyword table one of whose keywords
 * occurs in it as a substring, and into "outros" when none does.
 */
module Activity {
  import opened Text

  datatype Rule = Rule(category: string, keywords: seq<string>)

  /** The table in the order its categories are tried (a dict keeps insertion order). */
  const Keywords: seq<Rule> := [
    Rule("fundacao_ongs_instituicao", ["fundacao", "associacao", "instituicao", "fund", "sindicato"]),
    Rule("cooperativas", ["cooperativa"]),
    Rule("educacao", ["escola", "ensino", "curso", "cientifica", "especializacao"]),
    Rule("servicos", ["servico", "reparacao", "hospedagem", "consultoria", "repar", "borracharia",
                      "locacao", "servicos", "serraria", "laboratorio", "serv"]),
    Rule("comercio", ["comercio", "venda", "mercado", "atacado", "com de", "supermercado", "papelaria",
                      "bazar", "varejista", "farmacia", "concessionaria", "loja"]),
    Rule("industria", ["industria", "fabrica", "producao", "manufatura", "ind", "usinagem"])
  ]

  const Fallback: string := "outros"

  const Categories: set<string> :=
    {"fundacao_ongs_instituicao", "cooperativas", "educacao", "servicos", "comercio", "industria", Fallback}

  /** Some keyword of the rule occurs in the text. */
  predicate Matches(r: Rule, text: string)
  {
    exists i :: 0 <= i < |r.keywords| && Occurs(r.keywords[i], text)
  }

  /** The category of the first matching rule, or the fallback. */
  function Categorize(rules: seq<Rule>, text: string): (category: string)
    ensures category == Fallback || exists k :: 0 <= k < |rules| && category == rules[k].category && Matches(rules[k], text)
  {
    if rules == [] then Fallback
    else if Matches(rules[0], text) then rules[0].category
    else
      var c := Categorize(rules[1..], text);
      assert c != Fallback ==> exists k :: 1 <= k < |rules| && c == rules[k].category && Matches(rules[k], text) by {
        if c != Fallback {
          var k :| 0 <= k < |rules[1..]| && c == rules[1..][k].category && Matches(rules[1..][k], text);
          assert rules[1..][k] == rules[k + 1];
        }
      }
      c
  }

  /** The rule that decides is the first one that matches. */
  lemma {:induction false} CategorizeFirstMatch(rules: seq<Rule>, text: string, k: int)
    requires 0 <= k < |rules| && Matches(rules[k], text)
    requires forall j :: 0 <= j < k ==> !Matches(rules[j], text)
    ensures Categorize(rules, text) == rules[k].category
  {
    if k > 0 {
      assert rules[1..][k - 1] == rules[k];
      assert forall j :: 0 <= j < k - 1 ==> rules[1..][j] == rules[j + 1];
      CategorizeFirstMatch(rules[1..], text, k - 1);
    }
  }

  /** With no rule matching, the result is the fallback. */
  lemma {:induction false} CategorizeNoMatch(rules: seq<Rule>, text: string)
    requires forall j :: 0 <= j < |rules| ==> !Matches(rules[j], text)
    ensures Categorize(rules, text) == Fallback
  {
    if rules != [] {
      assert forall j :: 0 <= j < |rules| - 1 ==> rules[1..][j] == rules[j + 1];
      CategorizeNoMatch(rules[1..], text);
    }
  }

  /** categorizar_atividade on a text value. */
  function CategorizarAtividade(atividade: string): (category: string)
    ensures category in Categories
  {
    Categorize(Keywords, Lower(atividade))
  }

  /** When no rule's category is the fallback, the fallback means that no rule matched. */
  lemma CategorizeFallbackIff(rules: seq<Rule>, text: string)
    requires forall k :: 0 <= k < |rules| ==> rules[k].category != Fallback
    ensures Categorize(rules, text) == Fallback <==> forall j :: 0 <= j < |rules| ==> !Matches(rules[j], text)
  {
    if forall j :: 0 <= j < |rules| ==> !Matches(rules[j], text) {
      CategorizeNoMatch(rules, text);
    }
  }

  /** "outros" exactly when no keyword of the table occurs in the lower-cased text. */
  lemma CategorizarAtividadeFallbackIff(atividade: string)
    ensures CategorizarAtividade(atividade) == Fallback
        <==> forall j :: 0 <= j < |Keywords| ==> !Matches(Keywords[j], Lower(atividade))
  {
    CategorizeFallbackIff(Keywords, Lower(atividade));
  }

  /** Matching ignores capitals. */
  lemma CategorizarAtividadeLowered(atividade: string)
    ensures CategorizarAtividade(Lower(atividade)) == CategorizarAtividade(atividade)
  {
    LowerIdempotent(atividade);
  }

  /** "fund" is tried before every other category's keywords. */
  lemma FundDecides(atividade: string)
    requires Occurs("fund", Lower(atividade))
    ensures CategorizarAtividade(atividade) == "fundacao_ongs_instituicao"
  {
    assert Keywords[0].keywords[3] == "fund";
    CategorizeFirstMatch(Keywords, Lower(atividade), 0);
  }

  /** A rule misses a text when each keyword holds a character (given in order in cs) the text lacks. */
  lemma RuleMissesText(r: Rule, text: string, cs: string)
    requires |cs| == |r.keywords|
    requires forall i :: 0 <= i < |cs| ==> cs[i] in r.keywords[i] && cs[i] !in text
    ensures !Matches(r, text)
  {
    forall i | 0 <= i < |cs|
      ensures !Occurs(r.keywords[i], text)
    {
      OccursMissingChar(r.keywords[i], text, cs[i]);
    }
  }

  /** No keyword of the first three rules occurs in "conserva". */
  lemma ConservaMissesFirstRules(v: string)
    requires v == "conserva"
    ensures forall j :: 0 <= j < 3 ==> !Matches(Keywords[j], v)
  {
    RuleMissesText(Keywords[0], v, "fiifi");
    RuleMissesText(Keywords[1], v, "p");
    RuleMissesText(Keywords[2], v, "liuip");
  }

  /** "serv" occurs in "conserva" at position 3. */
  lemma ConservaMatchesServices(v: string)
    requires v == "conserva"
    ensures Matches(Keywords[3], v)
  {
    assert OccursAt("serv", v, 3);
    OccursAtOccurs("serv", v, 3);
    assert Keywords[3].keywords[10] == "serv";
  }

  /** A keyword is a substring, not a word: "serv" inside "conserva" makes it a service. */
  lemma ConservaIsService(v: string)
    requires v == "conserva"
    ensures CategorizarAtividade(v) == "servicos"
  {
    LowerWithoutCapitals(v);
    ConservaMissesFirstRules(v);
    ConservaMatchesServices(v);
    CategorizeFirstMatch(Keywords, v, 3);
  }
}
