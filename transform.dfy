/**
 * `FeatureEngineeringTransformer.transform` over one row of the frame. A row
 * maps column names to cells; the transformation works on a copy, step by
 * step in the order of src/custom_transformers.py, and either yields the new
 * row or stops at the first step that raises.
 */
module FeatureEngineering {
  import opened Wrappers
  import opened NumericCasts
  import PaymentTerms
  import Classifiers
  import Activity

  /** One cell of the frame. */
  datatype Cell =
    | Num(x: real)       // an int or a finite float, exactly
    | Text(s: string)    // a str
    | NaN                // NaN or None
    | Inexact            // a float that is not NaN but whose value is not computed here: a log1p, an infinity

  type Frame = map<string, Cell>

  /** Why a step raises, with the column it was reading. */
  datatype Error =
    | KeyError(column: string)        // the column is not in the frame
    | CastError(column: string)       // astype(int) meets NaN
    | TypeError(column: string)       // a str where round() or a comparison needs a number
    | ValueError(column: string)      // astype(int) meets a str
    | AttributeError(column: string)  // .lower() on a value that is not a str
    | Unmodelled(column: string)      // an Inexact cell where its value would decide the result

  // ---------------------------------------------------------------------------
  // Column lists
  // ---------------------------------------------------------------------------

  const IntColumns: seq<string> :=
    ["default_3months", "quant_protestos", "quant_acao_judicial", "dividas_vencidas_qtd",
     "falencia_concordata_qtd", "month", "year"]

  const BinColumns: seq<string> :=
    ["quant_protestos", "quant_acao_judicial", "dividas_vencidas_qtd", "falencia_concordata_qtd",
     "default_3months"]

  const LogColumns: seq<string> :=
    ["valor_por_vencer", "valor_vencido", "valor_quitado", "valor_protestos", "acao_judicial_valor",
     "dividas_vencidas_valor", "valor_total_pedido"]

  const DroppedColumns: seq<string> :=
    ["valor_por_vencer", "valor_vencido", "valor_quitado", "valor_protestos", "acao_judicial_valor",
     "dividas_vencidas_valor", "valor_total_pedido", "quant_protestos", "quant_acao_judicial",
     "dividas_vencidas_qtd", "falencia_concordata_qtd", "forma_pagamento", "tipo_sociedade",
     "atividade_principal", "month"]

  function BinName(col: string): string { col + "_bin" }

  function LogName(col: string): string { "log1p_" + col }

  // ---------------------------------------------------------------------------
  // Reading cells
  // ---------------------------------------------------------------------------

  /** X[col]: the cell, or a KeyError. */
  function Get(f: Frame, col: string): Result<Cell, Error>
  {
    if col in f then Success(f[col]) else Failure(KeyError(col))
  }

  /** A cell used as a number: None for NaN; a str or an Inexact cell cannot be used. */
  function NumberOf(c: Cell, col: string): (r: Result<Option<real>, Error>)
    ensures r.Success? <==> c.Num? || c.NaN?
    ensures r == Success(None) <==> c.NaN?
    ensures c.Num? ==> r == Success(Some(c.x))
  {
    match c
    case Num(x) => Success(Some(x))
    case NaN => Success(None)
    case Text(_) => Failure(TypeError(col))
    case Inexact => Failure(Unmodelled(col))
  }

  /** Float division: x / 0 is NaN when x is 0 and an infinity otherwise. */
  function Divide(n: Option<real>, d: Option<real>): (c: Cell)
    ensures c.NaN? <==> n.None? || d.None? || (d.value == 0.0 && n.value == 0.0)
    ensures c.Num? <==> n.Some? && d.Some? && d.value != 0.0
    ensures c.Num? ==> c.x * d.value == n.value
  {
    if n.None? || d.None? then NaN
    else if d.value == 0.0 then (if n.value == 0.0 then NaN else Inexact)
    else Num(n.value / d.value)
  }

  /** Float addition with NaN absorbing. */
  function Plus(a: Option<real>, b: Option<real>): Option<real>
  {
    if a.None? || b.None? then None else Some(a.value + b.value)
  }

  /** A category or NaN. */
  function CategoryCell(category: Option<string>): Cell
  {
    if category.Some? then Text(category.value) else NaN
  }

  /** np.where(X[col] == "missing", 1, 0). */
  function MissingFlag(c: Cell): (flag: Cell)
    ensures flag == Num(1.0) <==> c == Text("missing")
    ensures flag == Num(0.0) <==> c != Text("missing")
  {
    if c == Text("missing") then Num(1.0) else Num(0.0)
  }

  // ---------------------------------------------------------------------------
  // Lines 24-32: integer columns
  // ---------------------------------------------------------------------------

  /** X[col] = X[col].round().astype(int). */
  function RoundColumn(f: Frame, col: string): Result<Frame, Error>
  {
    var c :- Get(f, col);
    match c
    case Num(x) => Success(f[col := Num(RoundHalfEven(x) as real)])
    case NaN => Failure(CastError(col))
    case Text(_) => Failure(TypeError(col))
    case Inexact => Failure(Unmodelled(col))
  }

  /** The first listed column the frame lacks. */
  function FirstMissing(f: Frame, cols: seq<string>): (r: Option<string>)
    ensures r.None? <==> forall i :: 0 <= i < |cols| ==> cols[i] in f
    ensures r.Some? ==> r.value in cols && r.value !in f
  {
    if cols == [] then None
    else if cols[0] !in f then Some(cols[0])
    else FirstMissing(f, cols[1..])
  }

  /** The first listed column whose cell is not a number. */
  function FirstNonNumber(f: Frame, cols: seq<string>): (r: Option<string>)
    requires forall i :: 0 <= i < |cols| ==> cols[i] in f
    ensures r.None? <==> forall i :: 0 <= i < |cols| ==> f[cols[i]].Num?
    ensures r.Some? ==> r.value in cols && r.value in f && !f[r.value].Num?
  {
    if cols == [] then None
    else if !f[cols[0]].Num? then Some(cols[0])
    else FirstNonNumber(f, cols[1..])
  }

  /** X[cols] = X[cols].astype(int): every column must exist; a NaN or a str stops the cast. */
  function CastColumns(f: Frame, cols: seq<string>): Result<Frame, Error>
  {
    match FirstMissing(f, cols)
    case Some(c) => Failure(KeyError(c))
    case None =>
      match FirstNonNumber(f, cols)
      case Some(c) => Failure(if f[c].NaN? then CastError(c) else if f[c].Text? then ValueError(c) else Unmodelled(c))
      case None => Success(map k | k in f :: if k in cols then Num(Trunc(f[k].x) as real) else f[k])
  }

  function PrepareTypes(x: Frame): Result<Frame, Error>
  {
    var f1 :- RoundColumn(x, "ioi_36months");
    var f2 :- RoundColumn(f1, "ioi_3months");
    CastColumns(f2, IntColumns)
  }

  // ---------------------------------------------------------------------------
  // Lines 35-43: the two loops over column lists
  // ---------------------------------------------------------------------------

  /** X[col + "_bin"] = (X[col] > 0).astype(int); NaN > 0 is False. */
  function BinColumn(f: Frame, col: string): Result<Frame, Error>
  {
    var c :- Get(f, col);
    var n :- NumberOf(c, col);
    Success(f[BinName(col) := Num(if n.Some? then Classifiers.Bin(n.value) as real else 0.0)])
  }

  /** X["log1p_" + col] = np.log1p(X[col]): NaN below -1, a float the model does not compute otherwise. */
  function LogColumn(f: Frame, col: string): Result<Frame, Error>
  {
    var c :- Get(f, col);
    var n :- NumberOf(c, col);
    Success(f[LogName(col) := if n.None? || n.value < -1.0 then NaN else Inexact])
  }

  /** The bin loop: one BinColumn per listed column, in order. */
  function BinAll(f: Frame, cols: seq<string>): Result<Frame, Error>
    decreases |cols|
  {
    if cols == [] then Success(f)
    else
      var g :- BinColumn(f, cols[0]);
      BinAll(g, cols[1..])
  }

  /** The log loop: one LogColumn per listed column, in order. */
  function LogAll(f: Frame, cols: seq<string>): Result<Frame, Error>
    decreases |cols|
  {
    if cols == [] then Success(f)
    else
      var g :- LogColumn(f, cols[0]);
      LogAll(g, cols[1..])
  }

  // ---------------------------------------------------------------------------
  // Lines 46-140: the derived columns and the drop
  // ---------------------------------------------------------------------------

  /** Lines 46-50: the two pd.cut bins and ratio_ioi. */
  function IoiPhase(f: Frame): Result<Frame, Error>
  {
    var c36 :- Get(f, "ioi_36months");
    var d36 :- NumberOf(c36, "ioi_36months");
    var c3 :- Get(f, "ioi_3months");
    var d3 :- NumberOf(c3, "ioi_3months");
    var cat36 := if d36.Some? then CategoryCell(Classifiers.Ioi36Cat(d36.value)) else NaN;
    var cat3 := if d3.Some? then CategoryCell(Classifiers.Ioi3Cat(d3.value)) else NaN;
    Success(f["ioi_36m_cat" := cat36]["ioi_3_cat" := cat3]["ratio_ioi" := Divide(d3, Plus(d36, Some(1.0)))])
  }

  /** Lines 53-70: Series.map over the grouping table; a non-str or unlisted type is NaN. */
  function SocietyPhase(f: Frame): Result<Frame, Error>
  {
    var c :- Get(f, "tipo_sociedade");
    var g := if c.Text? then CategoryCell(Classifiers.GrupoSociedade(c.s)) else NaN;
    Success(f["tipo_sociedade_agrupado" := g])
  }

  /** The three cells the parser's tuple becomes. */
  function MetricsCells(m: PaymentTerms.Metrics): (cells: (Cell, Cell, Cell))
    requires PaymentTerms.ValidMetrics(m)
  {
    match PaymentTerms.AsTriple(m)
    case None => (NaN, NaN, NaN)
    case Some(t) =>
      (Num(t.nParcelas as real),
       Num(t.prazoMedio.sum as real / t.prazoMedio.count as real),
       Num(t.prazoMaximo as real))
  }

  /** Lines 72-86: extrair_metricas on forma_pagamento; a number there has no lower(). */
  function PaymentPhase(f: Frame): Result<Frame, Error>
  {
    var c :- Get(f, "forma_pagamento");
    var m :- match c
      case NaN => Success(PaymentTerms.Missing)
      case Text(s) => Success(PaymentTerms.ExtrairMetricas(Some(s)))
      case _ => Failure(AttributeError("forma_pagamento"));
    var cells := MetricsCells(m);
    Success(f["n_parcelas" := cells.0]["prazo_medio" := cells.1]["prazo_maximo" := cells.2])
  }

  /** Lines 88-99: classificar_forma_pto on prazo_maximo. */
  function TermClassPhase(f: Frame): Result<Frame, Error>
  {
    var c :- Get(f, "prazo_maximo");
    var p :- NumberOf(c, "prazo_maximo");
    Success(f["classificacao_prazo" := Text(Classifiers.ClassificarFormaPto(p))])
  }

  /** Lines 102-103: the exact-equality missing flags. */
  function MissingFlagsPhase(f: Frame): Result<Frame, Error>
  {
    var o :- Get(f, "opcao_tributaria");
    var p :- Get(f, "forma_pagamento");
    Success(f["opcao_tributaria_missing" := MissingFlag(o)]["forma_pagamento_missing" := MissingFlag(p)])
  }

  /** Lines 106-119: categorizar_atividade; a non-str activity has no lower(). */
  function ActivityPhase(f: Frame): Result<Frame, Error>
  {
    var c :- Get(f, "atividade_principal");
    if c.Text? then Success(f["atividade_agrupada" := Text(Activity.CategorizarAtividade(c.s))])
    else Failure(AttributeError("atividade_principal"))
  }

  /** Lines 122-123: the two proportions over quitado + por_vencer + 1. */
  function ProportionPhase(f: Frame): Result<Frame, Error>
  {
    var cq :- Get(f, "valor_quitado");
    var q :- NumberOf(cq, "valor_quitado");
    var cp :- Get(f, "valor_por_vencer");
    var p :- NumberOf(cp, "valor_por_vencer");
    var cv :- Get(f, "valor_vencido");
    var v :- NumberOf(cv, "valor_vencido");
    var d := Plus(Plus(q, p), Some(1.0));
    Success(f["prop_vencido" := Divide(v, d)]["prop_quitado" := Divide(q, d)])
  }

  /** Lines 126-135: agrupar_meses on month; every comparison with NaN is False, so NaN falls to "4". */
  function QuarterPhase(f: Frame): Result<Frame, Error>
  {
    var c :- Get(f, "month");
    var m :- NumberOf(c, "month");
    Success(f["trimestre" := Text(if m.Some? then Classifiers.AgruparMeses(m.value) else "4")])
  }

  /** Lines 138-140: X.drop([...], axis=1) raises unless every listed column exists. */
  function DropPhase(f: Frame): Result<Frame, Error>
  {
    match FirstMissing(f, DroppedColumns)
    case Some(c) => Failure(KeyError(c))
    case None => Success(map k | k in f && k !in DroppedColumns :: f[k])
  }

  /** The steps after the two loops, in source order. */
  function Derive(f: Frame): Result<Frame, Error>
  {
    var f1 :- IoiPhase(f);
    var f2 :- SocietyPhase(f1);
    var f3 :- PaymentPhase(f2);
    var f4 :- TermClassPhase(f3);
    var f5 :- MissingFlagsPhase(f4);
    var f6 :- ActivityPhase(f5);
    var f7 :- ProportionPhase(f6);
    var f8 :- QuarterPhase(f7);
    DropPhase(f8)
  }

  /** transform(X) as a value. */
  function Transform(x: Frame): Result<Frame, Error>
  {
    var f1 :- PrepareTypes(x);
    var f2 :- BinAll(f1, BinColumns);
    var f3 :- LogAll(f2, LogColumns);
    Derive(f3)
  }

  // ---------------------------------------------------------------------------
  // The transformation as the source performs it
  // ---------------------------------------------------------------------------

  /** transform(X): the copy X is updated column by column; the first step that raises ends it. */
  method TransformFrame(x: Frame) returns (r: Result<Frame, Error>)
    ensures r == Transform(x)
  {
    var X := x;
    X :- RoundColumn(X, "ioi_36months");
    X :- RoundColumn(X, "ioi_3months");
    X :- CastColumns(X, IntColumns);
    ghost var prepared := X;

    var i := 0;
    while i < |BinColumns|
      invariant 0 <= i <= |BinColumns|
      invariant BinAll(prepared, BinColumns) == BinAll(X, BinColumns[i..])
    {
      X :- BinColumn(X, BinColumns[i]);
      assert BinColumns[i..][1..] == BinColumns[i + 1..];
      i := i + 1;
    }
    ghost var binned := X;

    var j := 0;
    while j < |LogColumns|
      invariant 0 <= j <= |LogColumns|
      invariant LogAll(binned, LogColumns) == LogAll(X, LogColumns[j..])
    {
      X :- LogColumn(X, LogColumns[j]);
      assert LogColumns[j..][1..] == LogColumns[j + 1..];
      j := j + 1;
    }

    X :- IoiPhase(X);
    X :- SocietyPhase(X);
    X :- PaymentPhase(X);
    X :- TermClassPhase(X);
    X :- MissingFlagsPhase(X);
    X :- ActivityPhase(X);
    X :- ProportionPhase(X);
    X :- QuarterPhase(X);
    X :- DropPhase(X);
    return Success(X);
  }

  // ---------------------------------------------------------------------------
  // The stages, one at a time
  // ---------------------------------------------------------------------------

  /** The columns the integer casts read are present and numbers. */
  predicate Castable(x: Frame)
  {
    && "ioi_36months" in x && x["ioi_36months"].Num?
    && "ioi_3months" in x && x["ioi_3months"].Num?
    && forall c :: c in IntColumns ==> c in x && x[c].Num?
  }

  /** The row after lines 27-32: rounded ioi columns, truncated integer columns. */
  function Casted(x: Frame): (f: Frame)
    requires Castable(x)
    ensures f.Keys == x.Keys
  {
    map k | k in x ::
      if k == "ioi_36months" || k == "ioi_3months" then Num(RoundHalfEven(x[k].x) as real)
      else if k in IntColumns then Num(Trunc(x[k].x) as real)
      else x[k]
  }

  lemma PrepareTypesSpec(x: Frame)
    ensures PrepareTypes(x).Success? <==> Castable(x)
    ensures PrepareTypes(x).Success? ==> PrepareTypes(x).value == Casted(x)
  {
    if "ioi_36months" in x && x["ioi_36months"].Num? && "ioi_3months" in x && x["ioi_3months"].Num? {
      var f2 := x["ioi_36months" := Num(RoundHalfEven(x["ioi_36months"].x) as real)]
                 ["ioi_3months" := Num(RoundHalfEven(x["ioi_3months"].x) as real)];
      assert PrepareTypes(x) == CastColumns(f2, IntColumns);
      IntColumnsNotIoi();
      assert forall i :: 0 <= i < |IntColumns| ==> (IntColumns[i] in f2 <==> IntColumns[i] in x);
      assert forall i :: 0 <= i < |IntColumns| ==> IntColumns[i] in x ==> f2[IntColumns[i]] == x[IntColumns[i]];
      CastColumnsSpec(f2, IntColumns);
      if Castable(x) {
        CastedRounded(x, f2);
      }
    }
  }

  lemma IntColumnsNotIoi()
    ensures forall i :: 0 <= i < |IntColumns| ==> IntColumns[i] != "ioi_36months" && IntColumns[i] != "ioi_3months"
  {
  }

  /** The integer cast succeeds exactly when every listed column is there and holds a number. */
  lemma CastColumnsSpec(f: Frame, cols: seq<string>)
    ensures CastColumns(f, cols).Success? <==> forall i :: 0 <= i < |cols| ==> cols[i] in f && f[cols[i]].Num?
    ensures CastColumns(f, cols).Success? ==>
              CastColumns(f, cols).value == map k | k in f :: if k in cols then Num(Trunc(f[k].x) as real) else f[k]
  {
  }

  lemma CastedRoundedAt(x: Frame, f2: Frame, k: string)
    requires Castable(x)
    requires f2 == x["ioi_36months" := Num(RoundHalfEven(x["ioi_36months"].x) as real)]
                    ["ioi_3months" := Num(RoundHalfEven(x["ioi_3months"].x) as real)]
    requires k in x
    ensures (if k in IntColumns then Num(Trunc(f2[k].x) as real) else f2[k]) == Casted(x)[k]
  {
    if k == "ioi_36months" || k == "ioi_3months" {
      assert k !in IntColumns;
    } else {
      assert f2[k] == x[k];
    }
  }

  /** After the two roundings, the integer cast yields Casted. */
  lemma CastedRounded(x: Frame, f2: Frame)
    requires Castable(x)
    requires f2 == x["ioi_36months" := Num(RoundHalfEven(x["ioi_36months"].x) as real)]
                    ["ioi_3months" := Num(RoundHalfEven(x["ioi_3months"].x) as real)]
    ensures (map k | k in f2 :: if k in IntColumns then Num(Trunc(f2[k].x) as real) else f2[k]) == Casted(x)
  {
    assert "ioi_36months" !in IntColumns && "ioi_3months" !in IntColumns;
    var g := map k | k in f2 :: if k in IntColumns then Num(Trunc(f2[k].x) as real) else f2[k];
    assert g.Keys == f2.Keys == x.Keys == Casted(x).Keys;
    forall k | k in g
      ensures g[k] == Casted(x)[k]
    {
      CastedRoundedAt(x, f2, k);
    }
    FrameEquality(g, Casted(x));
  }

  /** A cell a number is read from without raising. */
  predicate Numeric(c: Cell) { c.Num? || c.NaN? }

  /** The flag BinColumn writes for a numeric cell. */
  function BinCell(c: Cell): Cell
    requires Numeric(c)
  {
    Num(if c.Num? then Classifiers.Bin(c.x) as real else 0.0)
  }

  /** The cell LogColumn writes for a numeric cell. */
  function LogCell(c: Cell): Cell
    requires Numeric(c)
  {
    if c.NaN? || c.x < -1.0 then NaN else Inexact
  }

  lemma BinNameInjective(a: string, b: string)
    requires BinName(a) == BinName(b)
    ensures a == b
  {
    assert a == BinName(a)[..|a|] && b == BinName(b)[..|b|];
  }

  lemma LogNameInjective(a: string, b: string)
    requires LogName(a) == LogName(b)
    ensures a == b
  {
    assert a == LogName(a)[6..] && b == LogName(b)[6..];
  }

  /** The columns the bin loop adds. */
  function BinNames(cols: seq<string>): set<string>
  {
    set c | c in cols :: BinName(c)
  }


  /** The columns the log loop adds. */
  function LogNames(cols: seq<string>): set<string>
  {
    set c | c in cols :: LogName(c)
  }


  /** Every listed column is in the frame and holds a number or NaN. */
  predicate AllNumeric(f: Frame, cols: seq<string>)
  {
    forall c :: c in cols ==> c in f && Numeric(f[c])
  }

  /**
   * The bin loop over columns none of which is the flag of another: it
   * raises exactly when a column is absent or not numeric; otherwise it adds
   * one flag per column and leaves every other column as it was.
   */
  lemma {:induction false} BinAllSpec(f: Frame, cols: seq<string>)
    requires forall c :: c in cols ==> BinName(c) !in cols
    ensures BinAll(f, cols).Success? <==> AllNumeric(f, cols)
    ensures BinAll(f, cols).Success? ==>
              && BinAll(f, cols).value.Keys == f.Keys + BinNames(cols)
              && (forall c :: c in cols ==> BinAll(f, cols).value[BinName(c)] == BinCell(f[c]))
              && (forall k :: k in f && k !in BinNames(cols) ==> BinAll(f, cols).value[k] == f[k])
  {
    BinAllSucceeds(f, cols);
    BinAllKeys(f, cols);
    BinAllKeeps(f, cols);
    BinAllCells(f, cols);
  }

  /** One step of the loop over a present, numeric column. */
  lemma BinAllStep(f: Frame, cols: seq<string>)
    requires cols != [] && cols[0] in f && Numeric(f[cols[0]])
    ensures BinAll(f, cols) == BinAll(f[BinName(cols[0]) := BinCell(f[cols[0]])], cols[1..])
  {
  }

  lemma BinNamesCons(cols: seq<string>)
    requires cols != []
    ensures BinNames(cols) == {BinName(cols[0])} + BinNames(cols[1..])
  {
    assert forall d :: d in cols <==> d == cols[0] || d in cols[1..];
  }

  lemma {:induction false} BinAllSucceeds(f: Frame, cols: seq<string>)
    requires forall c :: c in cols ==> BinName(c) !in cols
    ensures BinAll(f, cols).Success? <==> AllNumeric(f, cols)
    decreases |cols|
  {
    if cols != [] {
      var c := cols[0];
      var tail := cols[1..];
      assert forall d :: d in cols <==> d == c || d in tail;
      if c in f && Numeric(f[c]) {
        var g := f[BinName(c) := BinCell(f[c])];
        BinAllStep(f, cols);
        BinAllSucceeds(g, tail);
        assert forall d :: d in tail ==> d != BinName(c);
        assert AllNumeric(g, tail) <==> AllNumeric(f, cols);
      } else {
        assert BinColumn(f, c).Failure?;
      }
    }
  }

  lemma {:induction false} BinAllKeys(f: Frame, cols: seq<string>)
    ensures BinAll(f, cols).Success? ==> BinAll(f, cols).value.Keys == f.Keys + BinNames(cols)
    decreases |cols|
  {
    if cols != [] {
      var c := cols[0];
      if c in f && Numeric(f[c]) {
        var g := f[BinName(c) := BinCell(f[c])];
        BinAllStep(f, cols);
        BinAllKeys(g, cols[1..]);
        BinNamesCons(cols);
        assert g.Keys == f.Keys + {BinName(c)};
      } else {
        assert BinColumn(f, c).Failure?;
      }
    }
  }

  lemma {:induction false} BinAllKeeps(f: Frame, cols: seq<string>)
    ensures BinAll(f, cols).Success? ==> forall k :: k in f && k !in BinNames(cols) ==> k in BinAll(f, cols).value && BinAll(f, cols).value[k] == f[k]
    decreases |cols|
  {
    if cols != [] {
      var c := cols[0];
      if c in f && Numeric(f[c]) {
        var g := f[BinName(c) := BinCell(f[c])];
        BinAllStep(f, cols);
        BinAllKeeps(g, cols[1..]);
        BinAllKeys(g, cols[1..]);
        BinNamesCons(cols);
      } else {
        assert BinColumn(f, c).Failure?;
      }
    }
  }

  lemma {:induction false} BinAllCells(f: Frame, cols: seq<string>)
    requires forall c :: c in cols ==> BinName(c) !in cols
    ensures BinAll(f, cols).Success? ==>
              forall c :: c in cols ==> c in f && Numeric(f[c]) && BinName(c) in BinAll(f, cols).value && BinAll(f, cols).value[BinName(c)] == BinCell(f[c])
    decreases |cols|
  {
    if cols != [] {
      var c := cols[0];
      var tail := cols[1..];
      assert forall d :: d in cols <==> d == c || d in tail;
      if c in f && Numeric(f[c]) {
        var g := f[BinName(c) := BinCell(f[c])];
        BinAllStep(f, cols);
        BinAllCells(g, tail);
        BinAllKeeps(g, tail);
        BinAllKeys(g, tail);
        if BinAll(g, tail).Success? {
          var h := BinAll(g, tail).value;
          assert forall d :: d in tail ==> d != BinName(c) && g[d] == f[d];
          if c !in tail {
            if BinName(c) in BinNames(tail) {
              var e := BinNamesMember(tail, BinName(c));
              BinNameInjective(e, c);
            }
            assert h[BinName(c)] == BinCell(f[c]);
          }
        }
      } else {
        assert BinColumn(f, c).Failure?;
      }
    }
  }

  /** A member of BinNames(cols) is the flag of a listed column. */
  lemma BinNamesMember(cols: seq<string>, n: string) returns (c: string)
    requires n in BinNames(cols)
    ensures c in cols && n == BinName(c)
  {
    c :| c in cols && n == BinName(c);
  }


  /** A member of LogNames(cols) is the log column of a listed column. */
  lemma LogNamesMember(cols: seq<string>, n: string) returns (c: string)
    requires n in LogNames(cols)
    ensures c in cols && n == LogName(c)
  {
    c :| c in cols && n == LogName(c);
  }


  /** The log loop, as BinAllSpec states the bin loop. */
  lemma {:induction false} LogAllSpec(f: Frame, cols: seq<string>)
    requires forall c :: c in cols ==> LogName(c) !in cols
    ensures LogAll(f, cols).Success? <==> AllNumeric(f, cols)
    ensures LogAll(f, cols).Success? ==>
              && LogAll(f, cols).value.Keys == f.Keys + LogNames(cols)
              && (forall c :: c in cols ==> LogAll(f, cols).value[LogName(c)] == LogCell(f[c]))
              && (forall k :: k in f && k !in LogNames(cols) ==> LogAll(f, cols).value[k] == f[k])
  {
    LogAllSucceeds(f, cols);
    LogAllKeys(f, cols);
    LogAllKeeps(f, cols);
    LogAllCells(f, cols);
  }

  /** One step of the loop over a present, numeric column. */
  lemma LogAllStep(f: Frame, cols: seq<string>)
    requires cols != [] && cols[0] in f && Numeric(f[cols[0]])
    ensures LogAll(f, cols) == LogAll(f[LogName(cols[0]) := LogCell(f[cols[0]])], cols[1..])
  {
  }

  lemma LogNamesCons(cols: seq<string>)
    requires cols != []
    ensures LogNames(cols) == {LogName(cols[0])} + LogNames(cols[1..])
  {
    assert forall d :: d in cols <==> d == cols[0] || d in cols[1..];
  }

  lemma {:induction false} LogAllSucceeds(f: Frame, cols: seq<string>)
    requires forall c :: c in cols ==> LogName(c) !in cols
    ensures LogAll(f, cols).Success? <==> AllNumeric(f, cols)
    decreases |cols|
  {
    if cols != [] {
      var c := cols[0];
      var tail := cols[1..];
      assert forall d :: d in cols <==> d == c || d in tail;
      if c in f && Numeric(f[c]) {
        var g := f[LogName(c) := LogCell(f[c])];
        LogAllStep(f, cols);
        LogAllSucceeds(g, tail);
        assert forall d :: d in tail ==> d != LogName(c);
        assert AllNumeric(g, tail) <==> AllNumeric(f, cols);
      } else {
        assert LogColumn(f, c).Failure?;
      }
    }
  }

  lemma {:induction false} LogAllKeys(f: Frame, cols: seq<string>)
    ensures LogAll(f, cols).Success? ==> LogAll(f, cols).value.Keys == f.Keys + LogNames(cols)
    decreases |cols|
  {
    if cols != [] {
      var c := cols[0];
      if c in f && Numeric(f[c]) {
        var g := f[LogName(c) := LogCell(f[c])];
        LogAllStep(f, cols);
        LogAllKeys(g, cols[1..]);
        LogNamesCons(cols);
        assert g.Keys == f.Keys + {LogName(c)};
      } else {
        assert LogColumn(f, c).Failure?;
      }
    }
  }

  lemma {:induction false} LogAllKeeps(f: Frame, cols: seq<string>)
    ensures LogAll(f, cols).Success? ==> forall k :: k in f && k !in LogNames(cols) ==> k in LogAll(f, cols).value && LogAll(f, cols).value[k] == f[k]
    decreases |cols|
  {
    if cols != [] {
      var c := cols[0];
      if c in f && Numeric(f[c]) {
        var g := f[LogName(c) := LogCell(f[c])];
        LogAllStep(f, cols);
        LogAllKeeps(g, cols[1..]);
        LogAllKeys(g, cols[1..]);
        LogNamesCons(cols);
      } else {
        assert LogColumn(f, c).Failure?;
      }
    }
  }

  lemma {:induction false} LogAllCells(f: Frame, cols: seq<string>)
    requires forall c :: c in cols ==> LogName(c) !in cols
    ensures LogAll(f, cols).Success? ==>
              forall c :: c in cols ==> c in f && Numeric(f[c]) && LogName(c) in LogAll(f, cols).value && LogAll(f, cols).value[LogName(c)] == LogCell(f[c])
    decreases |cols|
  {
    if cols != [] {
      var c := cols[0];
      var tail := cols[1..];
      assert forall d :: d in cols <==> d == c || d in tail;
      if c in f && Numeric(f[c]) {
        var g := f[LogName(c) := LogCell(f[c])];
        LogAllStep(f, cols);
        LogAllCells(g, tail);
        LogAllKeeps(g, tail);
        LogAllKeys(g, tail);
        if LogAll(g, tail).Success? {
          var h := LogAll(g, tail).value;
          assert forall d :: d in tail ==> d != LogName(c) && g[d] == f[d];
          if c !in tail {
            if LogName(c) in LogNames(tail) {
              var e := LogNamesMember(tail, LogName(c));
              LogNameInjective(e, c);
            }
            assert h[LogName(c)] == LogCell(f[c]);
          }
        }
      } else {
        assert LogColumn(f, c).Failure?;
      }
    }
  }

  // ---------------------------------------------------------------------------
  // Column names
  // ---------------------------------------------------------------------------

  /** The name ends in "_bin". */
  predicate IsBinName(k: string)
  {
    |k| >= 4 && k[|k| - 4] == '_' && k[|k| - 3] == 'b' && k[|k| - 2] == 'i' && k[|k| - 1] == 'n'
  }

  /** The name starts with "log1p_". */
  predicate IsLogName(k: string)
  {
    |k| >= 6 && k[0] == 'l' && k[1] == 'o' && k[2] == 'g' && k[3] == '1' && k[4] == 'p' && k[5] == '_'
  }

  /** The column a flag name belongs to. */
  function BinSource(k: string): string
    requires IsBinName(k)
  {
    k[..|k| - 4]
  }

  /** The column a log name belongs to. */
  function LogSource(k: string): string
    requires IsLogName(k)
  {
    k[6..]
  }

  lemma BinNameShape(c: string)
    ensures IsBinName(BinName(c)) && BinSource(BinName(c)) == c
  {
    var n := BinName(c);
    assert n[..|c|] == c;
    assert n[|n| - 4] == '_' && n[|n| - 3] == 'b' && n[|n| - 2] == 'i' && n[|n| - 1] == 'n';
  }

  lemma LogNameShape(c: string)
    ensures IsLogName(LogName(c)) && LogSource(LogName(c)) == c
  {
    var n := LogName(c);
    assert n[6..] == c;
    assert n[0] == 'l' && n[1] == 'o' && n[2] == 'g' && n[3] == '1' && n[4] == 'p' && n[5] == '_';
  }

  /** BinNames(cols) is the set of names ending in "_bin" whose stem is listed. */
  lemma BinNamesIff(cols: seq<string>, n: string)
    ensures n in BinNames(cols) <==> IsBinName(n) && BinSource(n) in cols
  {
    if n in BinNames(cols) {
      var c := BinNamesMember(cols, n);
      BinNameShape(c);
    }
    if IsBinName(n) && BinSource(n) in cols {
      assert n[|n| - 4..] == "_bin";
      assert n == BinName(BinSource(n));
    }
  }

  /** LogNames(cols) is the set of names starting with "log1p_" whose stem is listed. */
  lemma LogNamesIff(cols: seq<string>, n: string)
    ensures n in LogNames(cols) <==> IsLogName(n) && LogSource(n) in cols
  {
    if n in LogNames(cols) {
      var c := LogNamesMember(cols, n);
      LogNameShape(c);
    }
    if IsLogName(n) && LogSource(n) in cols {
      assert n[..6] == "log1p_";
      assert n == LogName(LogSource(n));
    }
  }

  /** The derived columns other than the flags and the logs. */
  const NamedDerived: set<string> :=
    {"ioi_36m_cat", "ioi_3_cat", "ratio_ioi", "tipo_sociedade_agrupado", "n_parcelas", "prazo_medio",
     "prazo_maximo", "classificacao_prazo", "opcao_tributaria_missing", "forma_pagamento_missing",
     "atividade_agrupada", "prop_vencido", "prop_quitado", "trimestre"}

  /** The columns the steps after the loops read from the row. */
  const DeriveReads: seq<string> :=
    ["ioi_36months", "ioi_3months", "tipo_sociedade", "forma_pagamento", "opcao_tributaria",
     "atividade_principal", "valor_quitado", "valor_por_vencer", "valor_vencido", "month"]

  /** The flag columns are cast first. */
  lemma BinColumnsAreInt()
    ensures forall c :: c in BinColumns ==> c in IntColumns
  {
  }

  lemma IntColumnsShape()
    ensures forall c :: c in IntColumns ==> !IsBinName(c) && !IsLogName(c) && c != "ioi_36months" && c != "ioi_3months"
  {
  }

  lemma LogColumnsShape()
    ensures forall c :: c in LogColumns ==> !IsBinName(c) && !IsLogName(c)
  {
  }

  lemma LogColumnsNotInt()
    ensures forall c :: c in LogColumns ==> c !in IntColumns
  {
  }

  lemma DeriveReadsShape()
    ensures forall c :: c in DeriveReads ==> !IsBinName(c) && !IsLogName(c)
  {
  }

  lemma DeriveReadsNotNamed()
    ensures forall c :: c in DeriveReads ==> c !in NamedDerived
  {
  }

  lemma NamedDerivedShape()
    ensures forall c :: c in NamedDerived ==> !IsBinName(c) && !IsLogName(c)
  {
  }

  lemma NamedDerivedNotDropped()
    ensures forall c :: c in NamedDerived ==> c !in DroppedColumns
  {
  }

  lemma DroppedShape()
    ensures forall c :: c in DroppedColumns ==> !IsBinName(c) && !IsLogName(c)
  {
  }

  // ---------------------------------------------------------------------------
  // The result read off the input row
  // ---------------------------------------------------------------------------

  /** Every column transform reads is present and in a shape its step accepts. */
  predicate Accepted(x: Frame)
  {
    Castable(x) && AllNumeric(x, LogColumns) && TextsReadable(x)
  }

  /** The columns read as text after the loops are present, and those that must be str are. */
  predicate TextsReadable(f: Frame)
  {
    && "tipo_sociedade" in f
    && "forma_pagamento" in f && (f["forma_pagamento"].NaN? || f["forma_pagamento"].Text?)
    && "opcao_tributaria" in f
    && "atividade_principal" in f && f["atividade_principal"].Text?
  }

  /** f with a flag for every listed column: the frame the bin loop leaves. */
  function Flagged(f: Frame, cols: seq<string>): Frame
    requires AllNumeric(f, cols)
  {
    map k | k in f.Keys + BinNames(cols) ::
      BinNamesIff(cols, k);
      if k in BinNames(cols) then BinCell(f[BinSource(k)]) else f[k]
  }

  /** f with a log cell for every listed column: the frame the log loop leaves. */
  function Logged(f: Frame, cols: seq<string>): Frame
    requires AllNumeric(f, cols)
  {
    map k | k in f.Keys + LogNames(cols) ::
      LogNamesIff(cols, k);
      if k in LogNames(cols) then LogCell(f[LogSource(k)]) else f[k]
  }

  /** The row after the bin loop. */
  function Binned(x: Frame): Frame
    requires Castable(x)
  {
    BinColumnsAreInt();
    Flagged(Casted(x), BinColumns)
  }

  /** The log columns come through the casts and the bin loop unchanged. */
  lemma BinnedKeepsLogColumns(x: Frame)
    requires Castable(x)
    ensures forall c :: c in LogColumns ==> (c in Binned(x) <==> c in x) && (c in x ==> Binned(x)[c] == x[c])
  {
    LogColumnsShape();
    LogColumnsNotInt();
    LogColumnsNotIoi();
    forall c | c in LogColumns
      ensures (c in Binned(x) <==> c in x) && (c in x ==> Binned(x)[c] == x[c])
    {
      BinnedKeeps(x, c);
    }
  }

  lemma LogColumnsNotIoi()
    ensures forall c :: c in LogColumns ==> c != "ioi_36months" && c != "ioi_3months"
  {
  }

  /** A column that is not a flag name and that no cast writes comes through the bin loop as it came in. */
  lemma BinnedKeeps(x: Frame, c: string)
    requires Castable(x) && !IsBinName(c) && c !in IntColumns && c != "ioi_36months" && c != "ioi_3months"
    ensures c in Binned(x) <==> c in x
    ensures c in x ==> Binned(x)[c] == x[c]
  {
    BinNamesIff(BinColumns, c);
    CastedKeeps(x, c);
  }

  /** The row after the log loop. */
  function Looped(x: Frame): Frame
    requires Castable(x) && AllNumeric(x, LogColumns)
  {
    BinnedKeepsLogColumns(x);
    Logged(Binned(x), LogColumns)
  }

  /** The number a numeric cell holds, None for NaN. */
  function NumberIn(c: Cell): Option<real>
    requires Numeric(c)
  {
    if c.Num? then Some(c.x) else None
  }

  /** What the parser makes of forma_pagamento. */
  function PaymentMetrics(c: Cell): (m: PaymentTerms.Metrics)
    requires c.NaN? || c.Text?
    ensures PaymentTerms.ValidMetrics(m)
  {
    if c.NaN? then PaymentTerms.Missing else PaymentTerms.ExtrairMetricas(Some(c.s))
  }

  /** The triple's maximum term, as classificar_forma_pto sees it. */
  function MaxTerm(m: PaymentTerms.Metrics): Option<real>
    requires PaymentTerms.ValidMetrics(m)
  {
    var t := PaymentTerms.AsTriple(m);
    if t.Some? then Some(t.value.prazoMaximo as real) else None
  }

  /** The columns the steps after the loops read hold cells those steps accept. */
  predicate Readable(f: Frame)
  {
    NumbersReadable(f) && TextsReadable(f)
  }

  /** The columns read as numbers after the loops hold numbers, or NaN where the step allows it. */
  predicate NumbersReadable(f: Frame)
  {
    && "ioi_36months" in f && f["ioi_36months"].Num?
    && "ioi_3months" in f && f["ioi_3months"].Num?
    && "valor_quitado" in f && Numeric(f["valor_quitado"])
    && "valor_por_vencer" in f && Numeric(f["valor_por_vencer"])
    && "valor_vencido" in f && Numeric(f["valor_vencido"])
    && "month" in f && f["month"].Num?
  }

  /** The value of each named derived column, from the cells of the row it is computed from. */
  function DerivedCell(f: Frame, k: string): Cell
    requires Readable(f) && k in NamedDerived
  {
    var x36 := f["ioi_36months"].x;
    var x3 := f["ioi_3months"].x;
    var t := f["tipo_sociedade"];
    var m := PaymentMetrics(f["forma_pagamento"]);
    var q := NumberIn(f["valor_quitado"]);
    var d := Plus(Plus(q, NumberIn(f["valor_por_vencer"])), Some(1.0));
    if k == "ioi_36m_cat" then CategoryCell(Classifiers.Ioi36Cat(x36))
    else if k == "ioi_3_cat" then CategoryCell(Classifiers.Ioi3Cat(x3))
    else if k == "ratio_ioi" then Divide(Some(x3), Some(x36 + 1.0))
    else if k == "tipo_sociedade_agrupado" then (if t.Text? then CategoryCell(Classifiers.GrupoSociedade(t.s)) else NaN)
    else if k == "n_parcelas" then MetricsCells(m).0
    else if k == "prazo_medio" then MetricsCells(m).1
    else if k == "prazo_maximo" then MetricsCells(m).2
    else if k == "classificacao_prazo" then Text(Classifiers.ClassificarFormaPto(MaxTerm(m)))
    else if k == "opcao_tributaria_missing" then MissingFlag(f["opcao_tributaria"])
    else if k == "forma_pagamento_missing" then MissingFlag(f["forma_pagamento"])
    else if k == "atividade_agrupada" then Text(Activity.CategorizarAtividade(f["atividade_principal"].s))
    else if k == "prop_vencido" then Divide(NumberIn(f["valor_vencido"]), d)
    else if k == "prop_quitado" then Divide(q, d)
    else Text(Classifiers.AgruparMeses(f["month"].x))
  }

  /** An accepted row is readable once cast. */
  lemma AcceptedReadable(x: Frame)
    requires Accepted(x)
    ensures Readable(Casted(x))
  {
    assert "valor_quitado" in LogColumns && "valor_por_vencer" in LogColumns && "valor_vencido" in LogColumns;
    assert "month" in IntColumns;
    LogColumnsNotInt();
  }

  const DroppedSet: set<string> := set c | c in DroppedColumns

  /** The columns of the result: the input's and the derived ones, less the dropped ones. */
  function OutputColumns(cols: set<string>): set<string>
  {
    (cols + BinNames(BinColumns) + LogNames(LogColumns) + NamedDerived) - DroppedSet
  }

  /** The result of transform for an accepted row. */
  function Expected(x: Frame): (y: Frame)
    requires Accepted(x)
    ensures y.Keys == OutputColumns(x.Keys)
  {
    AcceptedReadable(x);
    map k | k in OutputColumns(x.Keys) :: if k in NamedDerived then DerivedCell(Casted(x), k) else Looped(x)[k]
  }

  /** The bin loop over numeric columns none of which is the flag of another yields Flagged. */
  lemma BinAllFlagged(f: Frame, cols: seq<string>)
    requires forall c :: c in cols ==> BinName(c) !in cols
    requires AllNumeric(f, cols)
    ensures BinAll(f, cols) == Success(Flagged(f, cols))
  {
    BinAllSpec(f, cols);
    var g := BinAll(f, cols).value;
    var h := Flagged(f, cols);
    forall k | k in g
      ensures k in h && g[k] == h[k]
    {
      BinNamesIff(cols, k);
      if k in BinNames(cols) {
        assert k == BinName(BinSource(k));
      }
    }
    assert g.Keys == h.Keys;
    assert g == h;
  }

  /** The log loop over numeric columns none of which is the log column of another yields Logged. */
  lemma LogAllLogged(f: Frame, cols: seq<string>)
    requires forall c :: c in cols ==> LogName(c) !in cols
    requires AllNumeric(f, cols)
    ensures LogAll(f, cols) == Success(Logged(f, cols))
  {
    LogAllSpec(f, cols);
    var g := LogAll(f, cols).value;
    var h := Logged(f, cols);
    forall k | k in g
      ensures k in h && g[k] == h[k]
    {
      LogNamesIff(cols, k);
      if k in LogNames(cols) {
        assert k == LogName(LogSource(k));
      }
    }
    assert g.Keys == h.Keys;
    assert g == h;
  }

  /** No flag column is itself a column the bin loop reads. */
  lemma BinColumnsNoFlags()
    ensures forall c :: c in BinColumns ==> BinName(c) !in BinColumns
  {
    BinColumnsAreInt();
    IntColumnsShape();
    forall c | c in BinColumns
      ensures BinName(c) !in BinColumns
    {
      BinNameShape(c);
    }
  }

  /** No log column is itself a column the log loop reads. */
  lemma LogColumnsNoLogs()
    ensures forall c :: c in LogColumns ==> LogName(c) !in LogColumns
  {
    LogColumnsShape();
    forall c | c in LogColumns
      ensures LogName(c) !in LogColumns
    {
      LogNameShape(c);
    }
  }

  /** After the casts the bin loop cannot raise, and the log loop raises unless every log column is numeric. */
  lemma LoopsSpec(x: Frame)
    requires Castable(x)
    ensures BinAll(Casted(x), BinColumns) == Success(Binned(x))
    ensures LogAll(Binned(x), LogColumns).Success? <==> AllNumeric(x, LogColumns)
    ensures AllNumeric(x, LogColumns) ==> LogAll(Binned(x), LogColumns) == Success(Looped(x))
  {
    BinLoopSpec(x);
    LogLoopSpec(x);
  }

  /** The bin loop over the cast row adds the flags. */
  lemma BinLoopSpec(x: Frame)
    requires Castable(x)
    ensures BinAll(Casted(x), BinColumns) == Success(Binned(x))
  {
    BinColumnsNoFlags();
    assert AllNumeric(Casted(x), BinColumns) by { BinColumnsAreInt(); }
    BinAllFlagged(Casted(x), BinColumns);
  }

  /** The log loop over the flagged row raises unless every log column is numeric, and otherwise adds the log columns. */
  lemma LogLoopSpec(x: Frame)
    requires Castable(x)
    ensures LogAll(Binned(x), LogColumns).Success? <==> AllNumeric(x, LogColumns)
    ensures AllNumeric(x, LogColumns) ==> LogAll(Binned(x), LogColumns) == Success(Looped(x))
  {
    LogColumnsNoLogs();
    BinnedKeepsLogColumns(x);
    LogAllSucceeds(Binned(x), LogColumns);
    assert AllNumeric(Binned(x), LogColumns) <==> AllNumeric(x, LogColumns);
    if AllNumeric(x, LogColumns) {
      LogAllLogged(Binned(x), LogColumns);
    }
  }

  /** The columns the steps after the loops read are as the casts left them. */
  lemma LoopedKeepsReads(x: Frame)
    requires Castable(x) && AllNumeric(x, LogColumns)
    ensures forall c :: c in DeriveReads ==> (c in Looped(x) <==> c in x) && (c in x ==> Looped(x)[c] == Casted(x)[c])
  {
    DeriveReadsShape();
    forall c | c in DeriveReads
      ensures (c in Looped(x) <==> c in x) && (c in x ==> Looped(x)[c] == Casted(x)[c])
    {
      BinNamesIff(BinColumns, c);
      LogNamesIff(LogColumns, c);
    }
  }

  /** The dropped columns are all in the row once the casts and the log loop have read them. */
  lemma LoopedHasDropped(x: Frame)
    requires Accepted(x)
    ensures forall c :: c in DroppedColumns ==> c in Looped(x)
  {
    DroppedShape();
    forall c | c in DroppedColumns
      ensures c in Looped(x)
    {
      BinNamesIff(BinColumns, c);
      LogNamesIff(LogColumns, c);
      assert c in x;
    }
  }

  /** The row once the eight column-adding steps have run, in their order. */
  function Added(f: Frame): Frame
    requires Readable(f)
  {
    var x36 := f["ioi_36months"].x;
    var x3 := f["ioi_3months"].x;
    var t := f["tipo_sociedade"];
    var m := PaymentMetrics(f["forma_pagamento"]);
    var q := NumberIn(f["valor_quitado"]);
    var d := Plus(Plus(q, NumberIn(f["valor_por_vencer"])), Some(1.0));
    f["ioi_36m_cat" := CategoryCell(Classifiers.Ioi36Cat(x36))]
     ["ioi_3_cat" := CategoryCell(Classifiers.Ioi3Cat(x3))]
     ["ratio_ioi" := Divide(Some(x3), Some(x36 + 1.0))]
     ["tipo_sociedade_agrupado" := if t.Text? then CategoryCell(Classifiers.GrupoSociedade(t.s)) else NaN]
     ["n_parcelas" := MetricsCells(m).0]
     ["prazo_medio" := MetricsCells(m).1]
     ["prazo_maximo" := MetricsCells(m).2]
     ["classificacao_prazo" := Text(Classifiers.ClassificarFormaPto(MaxTerm(m)))]
     ["opcao_tributaria_missing" := MissingFlag(f["opcao_tributaria"])]
     ["forma_pagamento_missing" := MissingFlag(f["forma_pagamento"])]
     ["atividade_agrupada" := Text(Activity.CategorizarAtividade(f["atividade_principal"].s))]
     ["prop_vencido" := Divide(NumberIn(f["valor_vencido"]), d)]
     ["prop_quitado" := Divide(q, d)]
     ["trimestre" := Text(Classifiers.AgruparMeses(f["month"].x))]
  }

  /** The drop finds every listed column and keeps the rest. */
  lemma DropReady(f: Frame)
    requires forall c :: c in DroppedColumns ==> c in f
    ensures DropPhase(f) == Success(map k | k in f && k !in DroppedColumns :: f[k])
  {
    assert FirstMissing(f, DroppedColumns).None?;
  }

  /** On a ready row the steps after the loops add their columns and drop the listed ones. */
  lemma IoiStep(f: Frame)
    requires "ioi_36months" in f && f["ioi_36months"].Num? && "ioi_3months" in f && f["ioi_3months"].Num?
    ensures IoiPhase(f) == Success(f["ioi_36m_cat" := CategoryCell(Classifiers.Ioi36Cat(f["ioi_36months"].x))]
                                    ["ioi_3_cat" := CategoryCell(Classifiers.Ioi3Cat(f["ioi_3months"].x))]
                                    ["ratio_ioi" := Divide(Some(f["ioi_3months"].x), Some(f["ioi_36months"].x + 1.0))])
  {
  }

  lemma SocietyStep(f: Frame, t: Cell)
    requires "tipo_sociedade" in f && f["tipo_sociedade"] == t
    ensures SocietyPhase(f) == Success(f["tipo_sociedade_agrupado" := if t.Text? then CategoryCell(Classifiers.GrupoSociedade(t.s)) else NaN])
  {
  }

  lemma PaymentStep(f: Frame, c: Cell)
    requires "forma_pagamento" in f && f["forma_pagamento"] == c && (c.NaN? || c.Text?)
    ensures PaymentPhase(f) == Success(f["n_parcelas" := MetricsCells(PaymentMetrics(c)).0]
                                        ["prazo_medio" := MetricsCells(PaymentMetrics(c)).1]
                                        ["prazo_maximo" := MetricsCells(PaymentMetrics(c)).2])
  {
  }

  lemma TermClassStep(f: Frame, m: PaymentTerms.Metrics)
    requires PaymentTerms.ValidMetrics(m)
    requires "prazo_maximo" in f && f["prazo_maximo"] == MetricsCells(m).2
    ensures TermClassPhase(f) == Success(f["classificacao_prazo" := Text(Classifiers.ClassificarFormaPto(MaxTerm(m)))])
  {
  }

  lemma MissingFlagsStep(f: Frame, o: Cell, p: Cell)
    requires "opcao_tributaria" in f && f["opcao_tributaria"] == o
    requires "forma_pagamento" in f && f["forma_pagamento"] == p
    ensures MissingFlagsPhase(f) == Success(f["opcao_tributaria_missing" := MissingFlag(o)]["forma_pagamento_missing" := MissingFlag(p)])
  {
  }

  lemma ActivityStep(f: Frame, a: string)
    requires "atividade_principal" in f && f["atividade_principal"] == Text(a)
    ensures ActivityPhase(f) == Success(f["atividade_agrupada" := Text(Activity.CategorizarAtividade(a))])
  {
  }

  lemma ProportionStep(f: Frame, q: Cell, p: Cell, v: Cell)
    requires Numeric(q) && Numeric(p) && Numeric(v)
    requires "valor_quitado" in f && f["valor_quitado"] == q
    requires "valor_por_vencer" in f && f["valor_por_vencer"] == p
    requires "valor_vencido" in f && f["valor_vencido"] == v
    ensures ProportionPhase(f) ==
      Success(f["prop_vencido" := Divide(NumberIn(v), Plus(Plus(NumberIn(q), NumberIn(p)), Some(1.0)))]
               ["prop_quitado" := Divide(NumberIn(q), Plus(Plus(NumberIn(q), NumberIn(p)), Some(1.0)))])
  {
  }

  lemma QuarterStep(f: Frame, month: real)
    requires "month" in f && f["month"] == Num(month)
    ensures QuarterPhase(f) == Success(f["trimestre" := Text(Classifiers.AgruparMeses(month))])
  {
  }

  /** Added with its let-bindings substituted. */
  lemma AddedUnfold(f: Frame)
    requires Readable(f)
    ensures Added(f) == f["ioi_36m_cat" := CategoryCell(Classifiers.Ioi36Cat(f["ioi_36months"].x))]
     ["ioi_3_cat" := CategoryCell(Classifiers.Ioi3Cat(f["ioi_3months"].x))]
     ["ratio_ioi" := Divide(Some(f["ioi_3months"].x), Some(f["ioi_36months"].x + 1.0))]
     ["tipo_sociedade_agrupado" := if f["tipo_sociedade"].Text? then CategoryCell(Classifiers.GrupoSociedade(f["tipo_sociedade"].s)) else NaN]
     ["n_parcelas" := MetricsCells(PaymentMetrics(f["forma_pagamento"])).0]
     ["prazo_medio" := MetricsCells(PaymentMetrics(f["forma_pagamento"])).1]
     ["prazo_maximo" := MetricsCells(PaymentMetrics(f["forma_pagamento"])).2]
     ["classificacao_prazo" := Text(Classifiers.ClassificarFormaPto(MaxTerm(PaymentMetrics(f["forma_pagamento"]))))]
     ["opcao_tributaria_missing" := MissingFlag(f["opcao_tributaria"])]
     ["forma_pagamento_missing" := MissingFlag(f["forma_pagamento"])]
     ["atividade_agrupada" := Text(Activity.CategorizarAtividade(f["atividade_principal"].s))]
     ["prop_vencido" := Divide(NumberIn(f["valor_vencido"]), Plus(Plus(NumberIn(f["valor_quitado"]), NumberIn(f["valor_por_vencer"])), Some(1.0)))]
     ["prop_quitado" := Divide(NumberIn(f["valor_quitado"]), Plus(Plus(NumberIn(f["valor_quitado"]), NumberIn(f["valor_por_vencer"])), Some(1.0)))]
     ["trimestre" := Text(Classifiers.AgruparMeses(f["month"].x))]
  {
  }

  /** Added adds the named columns and keeps every other one. */
  lemma AddedFrame(f: Frame)
    requires Readable(f)
    ensures forall k :: k in Added(f) <==> k in f || k in NamedDerived
    ensures forall k :: k in f && k !in NamedDerived ==> Added(f)[k] == f[k]
  {
    AddedUnfold(f);
  }

  // One lemma per named column keeps each lookup in Added and in
  // DerivedCell a separate, small proof.

  lemma AddedIoi36Cat(f: Frame)
    requires Readable(f)
    ensures "ioi_36m_cat" in Added(f) && Added(f)["ioi_36m_cat"] == DerivedCell(f, "ioi_36m_cat")
  {
    AddedUnfold(f);
  }

  lemma AddedIoi3Cat(f: Frame)
    requires Readable(f)
    ensures "ioi_3_cat" in Added(f) && Added(f)["ioi_3_cat"] == DerivedCell(f, "ioi_3_cat")
  {
    AddedUnfold(f);
  }

  lemma AddedRatioIoi(f: Frame)
    requires Readable(f)
    ensures "ratio_ioi" in Added(f) && Added(f)["ratio_ioi"] == DerivedCell(f, "ratio_ioi")
  {
    AddedUnfold(f);
  }

  lemma AddedSocietyGroup(f: Frame)
    requires Readable(f)
    ensures "tipo_sociedade_agrupado" in Added(f) && Added(f)["tipo_sociedade_agrupado"] == DerivedCell(f, "tipo_sociedade_agrupado")
  {
    AddedUnfold(f);
  }

  lemma AddedInstallments(f: Frame)
    requires Readable(f)
    ensures "n_parcelas" in Added(f) && Added(f)["n_parcelas"] == DerivedCell(f, "n_parcelas")
  {
    AddedUnfold(f);
  }

  lemma AddedMeanTerm(f: Frame)
    requires Readable(f)
    ensures "prazo_medio" in Added(f) && Added(f)["prazo_medio"] == DerivedCell(f, "prazo_medio")
  {
    AddedUnfold(f);
  }

  lemma AddedMaxTerm(f: Frame)
    requires Readable(f)
    ensures "prazo_maximo" in Added(f) && Added(f)["prazo_maximo"] == DerivedCell(f, "prazo_maximo")
  {
    AddedUnfold(f);
  }

  lemma AddedTermClass(f: Frame)
    requires Readable(f)
    ensures "classificacao_prazo" in Added(f) && Added(f)["classificacao_prazo"] == DerivedCell(f, "classificacao_prazo")
  {
    AddedUnfold(f);
  }

  lemma AddedTaxOptionFlag(f: Frame)
    requires Readable(f)
    ensures "opcao_tributaria_missing" in Added(f) && Added(f)["opcao_tributaria_missing"] == DerivedCell(f, "opcao_tributaria_missing")
  {
    AddedUnfold(f);
  }

  lemma AddedPaymentFlag(f: Frame)
    requires Readable(f)
    ensures "forma_pagamento_missing" in Added(f) && Added(f)["forma_pagamento_missing"] == DerivedCell(f, "forma_pagamento_missing")
  {
    AddedUnfold(f);
  }

  lemma AddedActivityGroup(f: Frame)
    requires Readable(f)
    ensures "atividade_agrupada" in Added(f) && Added(f)["atividade_agrupada"] == DerivedCell(f, "atividade_agrupada")
  {
    AddedUnfold(f);
  }

  lemma AddedOverdueShare(f: Frame)
    requires Readable(f)
    ensures "prop_vencido" in Added(f) && Added(f)["prop_vencido"] == DerivedCell(f, "prop_vencido")
  {
    assert DerivedCell(f, "prop_vencido") == Divide(NumberIn(f["valor_vencido"]), Plus(Plus(NumberIn(f["valor_quitado"]), NumberIn(f["valor_por_vencer"])), Some(1.0)));
    AddedUnfold(f);
  }

  lemma AddedPaidShare(f: Frame)
    requires Readable(f)
    ensures "prop_quitado" in Added(f) && Added(f)["prop_quitado"] == DerivedCell(f, "prop_quitado")
  {
    assert DerivedCell(f, "prop_quitado") == Divide(NumberIn(f["valor_quitado"]), Plus(Plus(NumberIn(f["valor_quitado"]), NumberIn(f["valor_por_vencer"])), Some(1.0)));
    AddedUnfold(f);
  }

  lemma AddedQuarter(f: Frame)
    requires Readable(f)
    ensures "trimestre" in Added(f) && Added(f)["trimestre"] == DerivedCell(f, "trimestre")
  {
    assert DerivedCell(f, "trimestre") == Text(Classifiers.AgruparMeses(f["month"].x));
    AddedUnfold(f);
  }

  lemma AddedIoiColumns(f: Frame, k: string)
    requires Readable(f) && (k == "ioi_36m_cat" || k == "ioi_3_cat" || k == "ratio_ioi")
    ensures k in Added(f) && Added(f)[k] == DerivedCell(f, k)
  {
    if k == "ioi_36m_cat" {
      AddedIoi36Cat(f);
    } else if k == "ioi_3_cat" {
      AddedIoi3Cat(f);
    } else {
      AddedRatioIoi(f);
    }
  }

  lemma AddedSocietyAndTerms(f: Frame, k: string)
    requires Readable(f) && (k == "tipo_sociedade_agrupado" || k == "n_parcelas" || k == "prazo_medio")
    ensures k in Added(f) && Added(f)[k] == DerivedCell(f, k)
  {
    if k == "tipo_sociedade_agrupado" {
      AddedSocietyGroup(f);
    } else if k == "n_parcelas" {
      AddedInstallments(f);
    } else {
      AddedMeanTerm(f);
    }
  }

  lemma AddedTermsAndFlags(f: Frame, k: string)
    requires Readable(f) && (k == "prazo_maximo" || k == "classificacao_prazo" || k == "opcao_tributaria_missing")
    ensures k in Added(f) && Added(f)[k] == DerivedCell(f, k)
  {
    if k == "prazo_maximo" {
      AddedMaxTerm(f);
    } else if k == "classificacao_prazo" {
      AddedTermClass(f);
    } else {
      AddedTaxOptionFlag(f);
    }
  }

  lemma AddedFlagsAndShares(f: Frame, k: string)
    requires Readable(f) && (k == "forma_pagamento_missing" || k == "atividade_agrupada" || k == "prop_vencido")
    ensures k in Added(f) && Added(f)[k] == DerivedCell(f, k)
  {
    if k == "forma_pagamento_missing" {
      AddedPaymentFlag(f);
    } else if k == "atividade_agrupada" {
      AddedActivityGroup(f);
    } else {
      AddedOverdueShare(f);
    }
  }

  lemma AddedLastColumns(f: Frame, k: string)
    requires Readable(f) && (k == "prop_quitado" || k == "trimestre")
    ensures k in Added(f) && Added(f)[k] == DerivedCell(f, k)
  {
    if k == "prop_quitado" {
      AddedPaidShare(f);
    } else {
      AddedQuarter(f);
    }
  }

  /** Added holds DerivedCell in every named column. */
  lemma AddedNamed(f: Frame, k: string)
    requires Readable(f) && k in NamedDerived
    ensures k in Added(f) && Added(f)[k] == DerivedCell(f, k)
  {
    if k == "ioi_36m_cat" || k == "ioi_3_cat" || k == "ratio_ioi" {
      AddedIoiColumns(f, k);
    } else if k == "tipo_sociedade_agrupado" || k == "n_parcelas" || k == "prazo_medio" {
      AddedSocietyAndTerms(f, k);
    } else if k == "prazo_maximo" || k == "classificacao_prazo" || k == "opcao_tributaria_missing" {
      AddedTermsAndFlags(f, k);
    } else if k == "forma_pagamento_missing" || k == "atividade_agrupada" || k == "prop_vencido" {
      AddedFlagsAndShares(f, k);
    } else {
      AddedLastColumns(f, k);
    }
  }

  /** On a readable row holding the dropped columns, the steps after the loops add their columns and drop the listed ones. */
  lemma DeriveReady(f: Frame)
    requires Readable(f) && forall c :: c in DroppedColumns ==> c in f
    ensures Derive(f) == Success(map k | k in Added(f) && k !in DroppedColumns :: Added(f)[k])
  {
    DeriveReadsNotNamed();
    IoiStep(f);
    var f1 := IoiPhase(f).value;
    SocietyStep(f1, f["tipo_sociedade"]);
    var f2 := SocietyPhase(f1).value;
    PaymentStep(f2, f["forma_pagamento"]);
    var f3 := PaymentPhase(f2).value;
    TermClassStep(f3, PaymentMetrics(f["forma_pagamento"]));
    var f4 := TermClassPhase(f3).value;
    MissingFlagsStep(f4, f["opcao_tributaria"], f["forma_pagamento"]);
    var f5 := MissingFlagsPhase(f4).value;
    ActivityStep(f5, f["atividade_principal"].s);
    var f6 := ActivityPhase(f5).value;
    ProportionStep(f6, f["valor_quitado"], f["valor_por_vencer"], f["valor_vencido"]);
    var f7 := ProportionPhase(f6).value;
    QuarterStep(f7, f["month"].x);
    AddedUnfold(f);
    assert QuarterPhase(f7).value == Added(f);
    AddedFrame(f);
    DropReady(Added(f));
  }

  // The failing runs: each phase before the one that raises succeeds and
  // passes the four text columns through untouched.

  /** Column c is absent from both frames or holds the same cell in both. */
  predicate Kept(f: Frame, g: Frame, c: string)
  {
    (c in g <==> c in f) && (c in f ==> g[c] == f[c])
  }

  /** The text columns the phases read come through from f to g. */
  predicate TextsKept(f: Frame, g: Frame)
  {
    && Kept(f, g, "tipo_sociedade") && Kept(f, g, "forma_pagamento")
    && Kept(f, g, "opcao_tributaria") && Kept(f, g, "atividade_principal")
  }

  lemma TextsKeptTrans(f: Frame, g: Frame, h: Frame)
    requires TextsKept(f, g) && TextsKept(g, h)
    ensures TextsKept(f, h)
  {
  }

  lemma IoiKeepsTexts(f: Frame)
    requires "ioi_36months" in f && f["ioi_36months"].Num? && "ioi_3months" in f && f["ioi_3months"].Num?
    ensures IoiPhase(f).Success? && TextsKept(f, IoiPhase(f).value)
  {
    IoiStep(f);
  }

  lemma SocietyKeepsTexts(f: Frame)
    requires "tipo_sociedade" in f
    ensures SocietyPhase(f).Success? && TextsKept(f, SocietyPhase(f).value)
  {
    SocietyStep(f, f["tipo_sociedade"]);
  }

  lemma PaymentKeepsTexts(f: Frame)
    requires "forma_pagamento" in f && (f["forma_pagamento"].NaN? || f["forma_pagamento"].Text?)
    ensures PaymentPhase(f).Success? && TextsKept(f, PaymentPhase(f).value)
    ensures "prazo_maximo" in PaymentPhase(f).value && Numeric(PaymentPhase(f).value["prazo_maximo"])
  {
    PaymentStep(f, f["forma_pagamento"]);
  }

  lemma TermClassKeepsTexts(f: Frame)
    requires "prazo_maximo" in f && Numeric(f["prazo_maximo"])
    ensures TermClassPhase(f).Success? && TextsKept(f, TermClassPhase(f).value)
  {
  }

  lemma FlagsKeepTexts(f: Frame)
    requires "opcao_tributaria" in f && "forma_pagamento" in f
    ensures MissingFlagsPhase(f).Success? && TextsKept(f, MissingFlagsPhase(f).value)
  {
    MissingFlagsStep(f, f["opcao_tributaria"], f["forma_pagamento"]);
  }

  /** Without tipo_sociedade the grouping raises. */
  lemma DeriveFailsAtSociety(f: Frame)
    requires NumbersReadable(f) && "tipo_sociedade" !in f
    ensures Derive(f).Failure?
  {
    IoiKeepsTexts(f);
    var f1 := IoiPhase(f).value;
    assert SocietyPhase(f1).Failure?;
  }

  /** Without forma_pagamento, or with a number in it, the parser raises. */
  lemma DeriveFailsAtPayment(f: Frame)
    requires NumbersReadable(f) && "tipo_sociedade" in f
    requires !("forma_pagamento" in f && (f["forma_pagamento"].NaN? || f["forma_pagamento"].Text?))
    ensures Derive(f).Failure?
  {
    IoiKeepsTexts(f);
    var f1 := IoiPhase(f).value;
    SocietyKeepsTexts(f1);
    var f2 := SocietyPhase(f1).value;
    TextsKeptTrans(f, f1, f2);
    assert PaymentPhase(f2).Failure?;
    DeriveStopsAtPayment(f, f1, f2);
  }

  /** Without opcao_tributaria its missing flag raises. */
  lemma DeriveFailsAtFlags(f: Frame)
    requires NumbersReadable(f) && "tipo_sociedade" in f
    requires "forma_pagamento" in f && (f["forma_pagamento"].NaN? || f["forma_pagamento"].Text?)
    requires "opcao_tributaria" !in f
    ensures Derive(f).Failure?
  {
    var f1, f2, f3, f4 := ClassifiedPrefix(f);
    assert MissingFlagsPhase(f4).Failure?;
    DeriveStopsAtFlags(f, f1, f2, f3, f4);
  }

  /** Without atividade_principal, or with a non-str in it, the categorisation raises. */
  lemma DeriveFailsAtActivity(f: Frame)
    requires NumbersReadable(f) && "tipo_sociedade" in f
    requires "forma_pagamento" in f && (f["forma_pagamento"].NaN? || f["forma_pagamento"].Text?)
    requires "opcao_tributaria" in f
    requires !("atividade_principal" in f && f["atividade_principal"].Text?)
    ensures Derive(f).Failure?
  {
    var f1, f2, f3, f4 := ClassifiedPrefix(f);
    FlagsKeepTexts(f4);
    var f5 := MissingFlagsPhase(f4).value;
    TextsKeptTrans(f, f4, f5);
    assert ActivityPhase(f5).Failure?;
    DeriveStopsAtActivity(f, f1, f2, f3, f4, f5);
  }

  /** The four phases up to the term class succeed on readable columns and keep the text columns. */
  lemma ClassifiedPrefix(f: Frame) returns (f1: Frame, f2: Frame, f3: Frame, f4: Frame)
    requires NumbersReadable(f) && "tipo_sociedade" in f
    requires "forma_pagamento" in f && (f["forma_pagamento"].NaN? || f["forma_pagamento"].Text?)
    ensures IoiPhase(f) == Success(f1) && SocietyPhase(f1) == Success(f2)
    ensures PaymentPhase(f2) == Success(f3) && TermClassPhase(f3) == Success(f4)
    ensures TextsKept(f, f4)
  {
    IoiKeepsTexts(f);
    f1 := IoiPhase(f).value;
    SocietyKeepsTexts(f1);
    f2 := SocietyPhase(f1).value;
    TextsKeptTrans(f, f1, f2);
    PaymentKeepsTexts(f2);
    f3 := PaymentPhase(f2).value;
    TextsKeptTrans(f, f2, f3);
    TermClassKeepsTexts(f3);
    f4 := TermClassPhase(f3).value;
    TextsKeptTrans(f, f3, f4);
  }

  lemma DeriveStopsAtPayment(f: Frame, f1: Frame, f2: Frame)
    requires IoiPhase(f) == Success(f1) && SocietyPhase(f1) == Success(f2)
    requires PaymentPhase(f2).Failure?
    ensures Derive(f).Failure?
  {
  }

  lemma DeriveStopsAtFlags(f: Frame, f1: Frame, f2: Frame, f3: Frame, f4: Frame)
    requires IoiPhase(f) == Success(f1) && SocietyPhase(f1) == Success(f2)
    requires PaymentPhase(f2) == Success(f3) && TermClassPhase(f3) == Success(f4)
    requires MissingFlagsPhase(f4).Failure?
    ensures Derive(f).Failure?
  {
  }

  lemma DeriveStopsAtActivity(f: Frame, f1: Frame, f2: Frame, f3: Frame, f4: Frame, f5: Frame)
    requires IoiPhase(f) == Success(f1) && SocietyPhase(f1) == Success(f2) && PaymentPhase(f2) == Success(f3)
    requires TermClassPhase(f3) == Success(f4) && MissingFlagsPhase(f4) == Success(f5)
    requires ActivityPhase(f5).Failure?
    ensures Derive(f).Failure?
  {
  }

  /** When a text column is absent or of the wrong type, the step that reads it raises. */
  lemma DeriveFails(f: Frame)
    requires NumbersReadable(f) && !TextsReadable(f)
    ensures Derive(f).Failure?
  {
    if "tipo_sociedade" !in f {
      DeriveFailsAtSociety(f);
    } else if !("forma_pagamento" in f && (f["forma_pagamento"].NaN? || f["forma_pagamento"].Text?)) {
      DeriveFailsAtPayment(f);
    } else if "opcao_tributaria" !in f {
      DeriveFailsAtFlags(f);
    } else {
      DeriveFailsAtActivity(f);
    }
  }

  /** The row after the loops: the input's columns, the flags and the log columns. */
  lemma LoopedKeys(x: Frame)
    requires Castable(x) && AllNumeric(x, LogColumns)
    ensures Looped(x).Keys == x.Keys + BinNames(BinColumns) + LogNames(LogColumns)
  {
  }

  /** DerivedCell depends only on the cells it reads. */
  lemma DerivedCellReads(f: Frame, g: Frame, k: string)
    requires Readable(f) && Readable(g) && k in NamedDerived
    requires f["ioi_36months"] == g["ioi_36months"] && f["ioi_3months"] == g["ioi_3months"]
    requires f["tipo_sociedade"] == g["tipo_sociedade"] && f["forma_pagamento"] == g["forma_pagamento"]
    requires f["opcao_tributaria"] == g["opcao_tributaria"] && f["atividade_principal"] == g["atividade_principal"]
    requires f["valor_quitado"] == g["valor_quitado"] && f["valor_por_vencer"] == g["valor_por_vencer"]
    requires f["valor_vencido"] == g["valor_vencido"] && f["month"] == g["month"]
    ensures DerivedCell(f, k) == DerivedCell(g, k)
  {
  }

  /** The casts leave every other column as it was. */
  lemma CastedKeeps(x: Frame, c: string)
    requires Castable(x) && c !in IntColumns && c != "ioi_36months" && c != "ioi_3months"
    ensures c in Casted(x) <==> c in x
    ensures c in x ==> Casted(x)[c] == x[c]
  {
  }

  /** A column whose name is neither a flag name nor a log name leaves the loops as the casts left it. */
  lemma LoopedKeeps(x: Frame, c: string)
    requires Castable(x) && AllNumeric(x, LogColumns) && !IsBinName(c) && !IsLogName(c)
    ensures c in Looped(x) <==> c in x
    ensures c in x ==> Looped(x)[c] == Casted(x)[c]
  {
    BinNamesIff(BinColumns, c);
    LogNamesIff(LogColumns, c);
  }

  /** A column that neither loop writes leaves the loops as the casts left it. */
  lemma LoopedUnnamed(x: Frame, c: string)
    requires Castable(x) && AllNumeric(x, LogColumns) && c !in BinNames(BinColumns) && c !in LogNames(LogColumns)
    ensures c in Looped(x) <==> c in x
    ensures c in x ==> Looped(x)[c] == Casted(x)[c]
  {
  }

  /** A column no cast and no loop writes leaves the loops as it came in. */
  lemma LoopedPlain(x: Frame, c: string)
    requires Castable(x) && AllNumeric(x, LogColumns) && !IsBinName(c) && !IsLogName(c)
    requires c !in IntColumns && c != "ioi_36months" && c != "ioi_3months"
    ensures c in Looped(x) <==> c in x
    ensures c in x ==> Looped(x)[c] == x[c]
  {
    LoopedKeeps(x, c);
    CastedKeeps(x, c);
  }

  /** After the loops the columns read as numbers hold numbers. */
  lemma LoopedNumbers(x: Frame)
    requires Castable(x) && AllNumeric(x, LogColumns)
    ensures NumbersReadable(Looped(x))
  {
    LoopedKeeps(x, "ioi_36months");
    LoopedKeeps(x, "ioi_3months");
    LoopedKeeps(x, "valor_quitado");
    LoopedKeeps(x, "valor_por_vencer");
    LoopedKeeps(x, "valor_vencido");
    LoopedKeeps(x, "month");
    assert "valor_quitado" in LogColumns && "valor_por_vencer" in LogColumns && "valor_vencido" in LogColumns;
    assert "month" in IntColumns;
    LogColumnsNotInt();
  }

  /** After the loops the text columns are as in the input. */
  lemma LoopedTexts(x: Frame)
    requires Castable(x) && AllNumeric(x, LogColumns)
    ensures TextsReadable(Looped(x)) <==> TextsReadable(x)
  {
    assert "tipo_sociedade" !in IntColumns && "forma_pagamento" !in IntColumns;
    assert "opcao_tributaria" !in IntColumns && "atividade_principal" !in IntColumns;
    LoopedPlain(x, "tipo_sociedade");
    LoopedPlain(x, "forma_pagamento");
    LoopedPlain(x, "opcao_tributaria");
    LoopedPlain(x, "atividade_principal");
  }

  /** After the loops the columns the later steps read are readable, and on an accepted row so are the cast ones. */
  lemma LoopedReadable(x: Frame)
    requires Castable(x) && AllNumeric(x, LogColumns)
    ensures NumbersReadable(Looped(x))
    ensures TextsReadable(Looped(x)) <==> TextsReadable(x)
    ensures Accepted(x) ==> Readable(Looped(x)) && Readable(Casted(x))
  {
    LoopedNumbers(x);
    LoopedTexts(x);
    if Accepted(x) {
      AcceptedReadable(x);
    }
  }

  /** The columns left after the drop are the output columns. */
  lemma AcceptedKeys(x: Frame)
    requires Accepted(x)
    ensures (LoopedReadable(x); forall k :: (k in Added(Looped(x)) && k !in DroppedColumns) <==> k in OutputColumns(x.Keys))
  {
    LoopedReadable(x);
    AddedFrame(Looped(x));
    LoopedKeys(x);
  }

  /** Each column left after the drop holds the value Expected gives it. */
  lemma AcceptedCell(x: Frame, k: string)
    requires Accepted(x)
    requires (LoopedReadable(x); k in Added(Looped(x)) && k in OutputColumns(x.Keys))
    ensures Added(Looped(x))[k] == Expected(x)[k]
  {
    LoopedReadable(x);
    var f := Looped(x);
    if k in NamedDerived {
      AddedNamed(f, k);
      LoopedKeepsReads(x);
      assert "ioi_36months" in DeriveReads && "ioi_3months" in DeriveReads && "month" in DeriveReads;
      assert "tipo_sociedade" in DeriveReads && "forma_pagamento" in DeriveReads && "opcao_tributaria" in DeriveReads;
      assert "atividade_principal" in DeriveReads && "valor_quitado" in DeriveReads;
      assert "valor_por_vencer" in DeriveReads && "valor_vencido" in DeriveReads;
      DerivedCellReads(f, Casted(x), k);
    } else {
      AddedFrame(f);
    }
  }

  /** Two rows with the same columns and the same cells are the same row. */
  lemma FrameEquality(a: Frame, b: Frame)
    requires a.Keys == b.Keys && forall k :: k in a ==> a[k] == b[k]
    ensures a == b
  {
  }

  /** On an accepted row the drop of Added has the columns of Expected. */
  lemma AcceptedDroppedKeys(x: Frame)
    requires Accepted(x)
    ensures (LoopedReadable(x); (map k | k in Added(Looped(x)) && k !in DroppedColumns :: Added(Looped(x))[k]).Keys == Expected(x).Keys)
  {
    AcceptedKeys(x);
  }

  /** On an accepted row the drop of Added is Expected. */
  lemma AcceptedDropped(x: Frame)
    requires Accepted(x)
    ensures (LoopedReadable(x); (map k | k in Added(Looped(x)) && k !in DroppedColumns :: Added(Looped(x))[k]) == Expected(x))
  {
    LoopedReadable(x);
    var f := Looped(x);
    var y := map k | k in Added(f) && k !in DroppedColumns :: Added(f)[k];
    var e := Expected(x);
    AcceptedDroppedKeys(x);
    forall k | k in y
      ensures y[k] == e[k]
    {
      AcceptedCell(x, k);
    }
    FrameEquality(y, e);
  }

  /** On an accepted row the steps after the loops give Expected. */
  lemma DeriveAccepted(x: Frame)
    requires Accepted(x)
    ensures Derive(Looped(x)) == Success(Expected(x))
  {
    LoopedReadable(x);
    LoopedHasDropped(x);
    DeriveReady(Looped(x));
    AcceptedDropped(x);
  }

  /** The steps after the loops succeed exactly on accepted rows, and then give Expected. */
  lemma DeriveSpec(x: Frame)
    requires Castable(x) && AllNumeric(x, LogColumns)
    ensures Derive(Looped(x)).Success? <==> Accepted(x)
    ensures Accepted(x) ==> Derive(Looped(x)) == Success(Expected(x))
  {
    LoopedReadable(x);
    if Accepted(x) {
      DeriveAccepted(x);
    } else {
      DeriveFails(Looped(x));
    }
  }

  // ---------------------------------------------------------------------------
  // The whole transformation
  // ---------------------------------------------------------------------------

  /** transform returns exactly for accepted rows, and then returns Expected. */
  lemma TransformSpec(x: Frame)
    ensures Transform(x).Success? <==> Accepted(x)
    ensures Accepted(x) ==> Transform(x) == Success(Expected(x))
  {
    PrepareTypesSpec(x);
    if Castable(x) {
      LoopsSpec(x);
      if AllNumeric(x, LogColumns) {
        DeriveSpec(x);
      }
    }
  }
}
