/**
 * The small decision rules of src/custom_transformers.py over integers and
 * strings: the payment-term classes of `classificar_forma_pto`, the quarters
 * of `agrupar_meses`, the `_bin` indicators, the right-closed bins of
 * `pd.cut`, and the society-type grouping map.
 */
module Classifiers {
  import opened Wrappers

  // ---------------------------------------------------------------------------
  // classificar_forma_pto
  // ---------------------------------------------------------------------------

  /** The classes of a maximum payment term, shortest first. */
  const TermLabels: seq<string> := ["curto", "medio", "longo", "muito_longo"]

  /**
   * The class of a maximum term in days; an absent term is "missing". Each
   * class is the interval its upper bound closes.
   */
  function ClassificarFormaPto(prazo: Option<real>): (cls: string)
    ensures cls == "missing" <==> prazo.None?
    ensures cls == "curto" <==> prazo.Some? && prazo.value <= 30.0
    ensures cls == "medio" <==> prazo.Some? && 30.0 < prazo.value <= 90.0
    ensures cls == "longo" <==> prazo.Some? && 90.0 < prazo.value <= 180.0
    ensures cls == "muito_longo" <==> prazo.Some? && 180.0 < prazo.value
    ensures prazo.Some? ==> cls in TermLabels
  {
    if prazo.None? then "missing"
    else if prazo.value <= 30.0 then "curto"
    else if prazo.value <= 90.0 then "medio"
    else if prazo.value <= 180.0 then "longo"
    else "muito_longo"
  }

  /** The position of a class in TermLabels. */
  function TermRank(cls: string): (k: nat)
    requires cls in TermLabels
    ensures k < |TermLabels| && TermLabels[k] == cls
  {
    if cls == "curto" then 0 else if cls == "medio" then 1 else if cls == "longo" then 2 else 3
  }

  /** A longer term never gets a shorter class. */
  lemma ClassificarFormaPtoMonotone(p: real, q: real)
    requires p <= q
    ensures TermRank(ClassificarFormaPto(Some(p))) <= TermRank(ClassificarFormaPto(Some(q)))
  {
  }

  lemma ClassificarFormaPtoBoundaries()
    ensures ClassificarFormaPto(Some(30.0)) == "curto" && ClassificarFormaPto(Some(30.5)) == "medio"
    ensures ClassificarFormaPto(Some(90.0)) == "medio" && ClassificarFormaPto(Some(91.0)) == "longo"
    ensures ClassificarFormaPto(Some(180.0)) == "longo" && ClassificarFormaPto(Some(181.0)) == "muito_longo"
    ensures ClassificarFormaPto(None) == "missing"
  {
  }

  // ---------------------------------------------------------------------------
  // agrupar_meses
  // ---------------------------------------------------------------------------

  /** The four groups of months: 1-4, 5-6, 7-9 and the rest; not calendar quarters. */
  function AgruparMeses(month: real): (group: string)
    ensures group == "1" <==> month <= 4.0
    ensures group == "2" <==> 4.0 < month <= 6.0
    ensures group == "3" <==> 6.0 < month <= 9.0
    ensures group == "4" <==> 9.0 < month
    ensures group in {"1", "2", "3", "4"}
  {
    if month <= 4.0 then "1"
    else if month <= 6.0 then "2"
    else if month <= 9.0 then "3"
    else "4"
  }

  // ---------------------------------------------------------------------------
  // The _bin indicators: (X[col] > 0).astype(int)
  // ---------------------------------------------------------------------------

  function Bin(count: real): (flag: int)
    ensures flag == 0 || flag == 1
    ensures flag == 1 <==> count > 0.0
  {
    if count > 0.0 then 1 else 0
  }

  // ---------------------------------------------------------------------------
  // pd.cut with its defaults: right-closed intervals (edges[i], edges[i + 1]]
  // ---------------------------------------------------------------------------

  predicate StrictlyIncreasing(edges: seq<int>)
  {
    forall i, j :: 0 <= i < j < |edges| ==> edges[i] < edges[j]
  }

  /**
   * The label of the interval (edges[i], edges[i + 1]] holding x, or None when
   * x is at or below the lowest edge or above the highest one.
   */
  function Cut(edges: seq<int>, labels: seq<string>, x: real): (r: Option<string>)
    requires |edges| == |labels| + 1 && StrictlyIncreasing(edges)
    ensures r.Some? <==> edges[0] as real < x <= edges[|edges| - 1] as real
    ensures forall i :: 0 <= i < |labels| && edges[i] as real < x <= edges[i + 1] as real ==> r == Some(labels[i])
    decreases |labels|
  {
    if labels == [] || x <= edges[0] as real then None
    else if x <= edges[1] as real then Some(labels[0])
    else
      var r := Cut(edges[1..], labels[1..], x);
      assert forall i :: 1 <= i < |labels| ==> edges[i] == edges[1..][i - 1] && edges[i + 1] == edges[1..][i];
      r
  }

  const Ioi36Edges: seq<int> := [0, 20, 38, 70, 9999]
  const Ioi36Labels: seq<string> := ["<=20", "21-38", "39-70", ">70"]
  const Ioi3Edges: seq<int> := [0, 10, 15, 20, 999]
  const Ioi3Labels: seq<string> := ["<=10", "11-15", "16-20", ">20"]

  /** ioi_36m_cat: the bin of ioi_36months. */
  function Ioi36Cat(days: real): Option<string>
  {
    assert StrictlyIncreasing(Ioi36Edges);
    Cut(Ioi36Edges, Ioi36Labels, days)
  }

  /** ioi_3_cat: the bin of ioi_3months. */
  function Ioi3Cat(days: real): Option<string>
  {
    assert StrictlyIncreasing(Ioi3Edges);
    Cut(Ioi3Edges, Ioi3Labels, days)
  }

  lemma Ioi36CatIntervals(days: real)
    ensures Ioi36Cat(days) == Some("<=20") <==> 0.0 < days <= 20.0
    ensures Ioi36Cat(days) == Some("21-38") <==> 20.0 < days <= 38.0
    ensures Ioi36Cat(days) == Some("39-70") <==> 38.0 < days <= 70.0
    ensures Ioi36Cat(days) == Some(">70") <==> 70.0 < days <= 9999.0
    ensures Ioi36Cat(days) == None <==> days <= 0.0 || 9999.0 < days
  {
    var e := Ioi36Edges;
    assert StrictlyIncreasing(e);
    if 0.0 < days <= 9999.0 {
      var i := if days <= 20.0 then 0 else if days <= 38.0 then 1 else if days <= 70.0 then 2 else 3;
      assert e[i] as real < days <= e[i + 1] as real;
    }
  }

  lemma Ioi3CatIntervals(days: real)
    ensures Ioi3Cat(days) == Some("<=10") <==> 0.0 < days <= 10.0
    ensures Ioi3Cat(days) == Some("11-15") <==> 10.0 < days <= 15.0
    ensures Ioi3Cat(days) == Some("16-20") <==> 15.0 < days <= 20.0
    ensures Ioi3Cat(days) == Some(">20") <==> 20.0 < days <= 999.0
    ensures Ioi3Cat(days) == None <==> days <= 0.0 || 999.0 < days
  {
    var e := Ioi3Edges;
    assert StrictlyIncreasing(e);
    if 0.0 < days <= 999.0 {
      var i := if days <= 10.0 then 0 else if days <= 15.0 then 1 else if days <= 20.0 then 2 else 3;
      assert e[i] as real < days <= e[i + 1] as real;
    }
  }

  // ---------------------------------------------------------------------------
  // grupos_sociedade and Series.map
  // ---------------------------------------------------------------------------

  const SocietyGroups: set<string> :=
    {"individual", "sociedade empresarial", "sociedade simples", "cooperativa", "outros"}

  const GruposSociedade: map<string, string> := map[
    "empresario (individual)" := "individual",
    "empresa individual respons limitada empresaria" := "individual",
    "empresario-mei(microempreendedor individual)" := "individual",
    "sociedade empresaria limitada" := "sociedade empresarial",
    "sociedade anonima fechada" := "sociedade empresarial",
    "sociedade anonima aberta" := "sociedade empresarial",
    "sociedade de economia mista" := "sociedade empresarial",
    "sociedade simples pura" := "sociedade simples",
    "sociedade simples limitada" := "sociedade simples",
    "cooperativa" := "cooperativa",
    "entidade sindical" := "outros",
    "municipio" := "outros",
    "servico social autonomo" := "outros",
    "organizacao religiosa" := "outros",
    "fundacao privada" := "outros",
    "outras formas de associacao" := "outros"
  ]

  /**
   * tipo_sociedade_agrupado: exact, case-sensitive lookup; a society type
   * the table does not list has no group (NaN), not "outros".
   */
  function GrupoSociedade(tipo: string): (group: Option<string>)
    ensures group.Some? <==> tipo in GruposSociedade
    ensures group.Some? ==> group.value in SocietyGroups
  {
    if tipo in GruposSociedade then Some(GruposSociedade[tipo]) else None
  }

  lemma GrupoSociedadeExamples()
    ensures GrupoSociedade("sociedade empresaria limitada") == Some("sociedade empresarial")
    ensures GrupoSociedade("cooperativa") == Some("cooperativa")
    ensures GrupoSociedade("Cooperativa") == None
    ensures GrupoSociedade("associacao") == None
  {
  }
}
