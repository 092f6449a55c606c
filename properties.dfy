/**
 * What transform promises about the row it returns, stated on the input row:
 * which columns come out, and what each derived column holds.
 */
module TransformProperties {
  import opened Wrappers
  import opened NumericCasts
  import opened FeatureEngineering
  import opened Text
  import PaymentTerms
  import Classifiers
  import Activity

  /** The cells the casts leave in the columns the later steps read. */
  lemma CastedReads(x: Frame)
    requires Castable(x)
    ensures "month" in x && x["month"].Num?
    ensures Casted(x)["ioi_36months"] == Num(RoundHalfEven(x["ioi_36months"].x) as real)
    ensures Casted(x)["ioi_3months"] == Num(RoundHalfEven(x["ioi_3months"].x) as real)
    ensures Casted(x)["month"] == Num(Trunc(x["month"].x) as real)
    ensures forall c :: c in x && c !in IntColumns && c != "ioi_36months" && c != "ioi_3months" ==> Casted(x)[c] == x[c]
  {
    assert "month" in IntColumns;
  }

  /** The casts truncate each integer column. */
  lemma CastedInt(x: Frame, c: string)
    requires Castable(x) && c in IntColumns
    ensures c in x && Casted(x)[c] == Num(Trunc(x[c].x) as real)
  {
    IntColumnsShape();
  }

  /** A named derived column of the result holds DerivedCell of the cast row. */
  lemma NamedColumn(x: Frame, k: string)
    requires Accepted(x) && k in NamedDerived
    ensures Transform(x).Success? && k in Transform(x).value
    ensures (AcceptedReadable(x); Transform(x).value[k] == DerivedCell(Casted(x), k))
  {
    TransformSpec(x);
    AcceptedReadable(x);
    NamedDerivedNotDropped();
    assert k !in DroppedSet;
    assert k in OutputColumns(x.Keys);
  }

  /** trimestre is agrupar_meses of the truncated month. */
  lemma TransformQuarter(x: Frame)
    requires Accepted(x)
    ensures Transform(x).Success? && "trimestre" in Transform(x).value
    ensures (CastedMonth(x); Transform(x).value["trimestre"] == Text(Classifiers.AgruparMeses(Trunc(x["month"].x) as real)))
  {
    NamedColumn(x, "trimestre");
    AcceptedReadable(x);
    DerivedQuarter(Casted(x));
    CastedMonth(x);
  }

  lemma DerivedQuarter(f: Frame)
    requires Readable(f)
    ensures DerivedCell(f, "trimestre") == Text(Classifiers.AgruparMeses(f["month"].x))
  {
  }

  lemma CastedMonth(x: Frame)
    requires Castable(x)
    ensures "month" in x && x["month"].Num? && Casted(x)["month"] == Num(Trunc(x["month"].x) as real)
  {
    assert "month" in IntColumns;
  }

  /** The two pd.cut columns bin the rounded day counts; outside the edges they are NaN. */
  lemma TransformIoiCategories(x: Frame)
    requires Accepted(x)
    ensures Transform(x).Success? && "ioi_36m_cat" in Transform(x).value && "ioi_3_cat" in Transform(x).value
    ensures var r36 := RoundHalfEven(x["ioi_36months"].x) as real;
            Transform(x).value["ioi_36m_cat"] == CategoryCell(Classifiers.Ioi36Cat(r36))
    ensures var r3 := RoundHalfEven(x["ioi_3months"].x) as real;
            Transform(x).value["ioi_3_cat"] == CategoryCell(Classifiers.Ioi3Cat(r3))
    ensures var r36 := RoundHalfEven(x["ioi_36months"].x) as real;
            Transform(x).value["ioi_36m_cat"] == NaN <==> r36 <= 0.0 || 9999.0 < r36
    ensures var r3 := RoundHalfEven(x["ioi_3months"].x) as real;
            Transform(x).value["ioi_3_cat"] == NaN <==> r3 <= 0.0 || 999.0 < r3
  {
    NamedColumn(x, "ioi_36m_cat");
    NamedColumn(x, "ioi_3_cat");
    CastedReads(x);
    Classifiers.Ioi36CatIntervals(RoundHalfEven(x["ioi_36months"].x) as real);
    Classifiers.Ioi3CatIntervals(RoundHalfEven(x["ioi_3months"].x) as real);
  }

  /** tipo_sociedade_agrupado is the table's group for a listed str, and NaN for anything else. */
  lemma TransformSociety(x: Frame)
    requires Accepted(x)
    ensures Transform(x).Success? && "tipo_sociedade_agrupado" in Transform(x).value
    ensures var t := x["tipo_sociedade"];
            Transform(x).value["tipo_sociedade_agrupado"] ==
              if t.Text? && t.s in Classifiers.GruposSociedade then Text(Classifiers.GruposSociedade[t.s]) else NaN
  {
    NamedColumn(x, "tipo_sociedade_agrupado");
    CastedReads(x);
  }

  /** The parser's triple fills n_parcelas, prazo_medio and prazo_maximo; a missing term fills all three with NaN. */
  lemma TransformPaymentTerms(x: Frame)
    requires Accepted(x)
    ensures Transform(x).Success?
    ensures "n_parcelas" in Transform(x).value && "prazo_medio" in Transform(x).value && "prazo_maximo" in Transform(x).value
    ensures var c := x["forma_pagamento"];
            var y := Transform(x).value;
            && (y["n_parcelas"] == NaN <==> c.NaN? || Lower(c.s) == "missing")
            && (y["prazo_medio"] == NaN <==> c.NaN? || Lower(c.s) == "missing")
            && (y["prazo_maximo"] == NaN <==> c.NaN? || Lower(c.s) == "missing")
    ensures var c := x["forma_pagamento"];
            var y := Transform(x).value;
            c.Text? && PaymentTerms.AsTriple(PaymentTerms.ExtrairMetricas(Some(c.s))).Some? ==>
              var t := PaymentTerms.AsTriple(PaymentTerms.ExtrairMetricas(Some(c.s))).value;
              && y["n_parcelas"] == Num(t.nParcelas as real)
              && y["prazo_medio"] == Num(t.prazoMedio.sum as real / t.prazoMedio.count as real)
              && y["prazo_maximo"] == Num(t.prazoMaximo as real)
  {
    NamedColumn(x, "n_parcelas");
    NamedColumn(x, "prazo_medio");
    NamedColumn(x, "prazo_maximo");
    CastedReads(x);
  }

  /** classificacao_prazo classifies the prazo_maximo the same row holds. */
  lemma TransformTermClass(x: Frame)
    requires Accepted(x)
    ensures Transform(x).Success?
    ensures "classificacao_prazo" in Transform(x).value && "prazo_maximo" in Transform(x).value
    ensures var y := Transform(x).value;
            && (y["prazo_maximo"].Num? || y["prazo_maximo"].NaN?)
            && y["classificacao_prazo"] ==
                 Text(Classifiers.ClassificarFormaPto(if y["prazo_maximo"].Num? then Some(y["prazo_maximo"].x) else None))
  {
    NamedColumn(x, "classificacao_prazo");
    NamedColumn(x, "prazo_maximo");
    CastedReads(x);
  }

  /** The missing flags are 1 exactly when the cell is the str "missing", with that case. */
  lemma TransformMissingFlags(x: Frame)
    requires Accepted(x)
    ensures Transform(x).Success?
    ensures "opcao_tributaria_missing" in Transform(x).value && "forma_pagamento_missing" in Transform(x).value
    ensures Transform(x).value["opcao_tributaria_missing"] ==
              if x["opcao_tributaria"] == Text("missing") then Num(1.0) else Num(0.0)
    ensures Transform(x).value["forma_pagamento_missing"] ==
              if x["forma_pagamento"] == Text("missing") then Num(1.0) else Num(0.0)
  {
    NamedColumn(x, "opcao_tributaria_missing");
    NamedColumn(x, "forma_pagamento_missing");
    CastedReads(x);
  }

  /**
   * The flag compares exactly while the parser lowers first: "MISSING" is
   * not flagged, yet its terms are all NaN and its class is "missing".
   */
  lemma MissingFlagIsCaseSensitive(x: Frame)
    requires Accepted(x) && x["forma_pagamento"] == Text("MISSING")
    ensures Transform(x).Success?
    ensures "forma_pagamento_missing" in Transform(x).value && "prazo_maximo" in Transform(x).value
    ensures "classificacao_prazo" in Transform(x).value
    ensures Transform(x).value["forma_pagamento_missing"] == Num(0.0)
    ensures Transform(x).value["prazo_maximo"] == NaN
    ensures Transform(x).value["classificacao_prazo"] == Text("missing")
  {
    TransformMissingFlags(x);
    TransformPaymentTerms(x);
    TransformTermClass(x);
    PaymentTerms.MissingExample(x["forma_pagamento"].s);
  }

  /** atividade_agrupada is categorizar_atividade of the activity text, one of the seven labels. */
  lemma TransformActivity(x: Frame)
    requires Accepted(x)
    ensures Transform(x).Success? && "atividade_agrupada" in Transform(x).value
    ensures Transform(x).value["atividade_agrupada"] == Text(Activity.CategorizarAtividade(x["atividade_principal"].s))
    ensures Transform(x).value["atividade_agrupada"].s in Activity.Categories
  {
    NamedColumn(x, "atividade_agrupada");
    CastedReads(x);
  }

  /** A flag or a log column of a listed column is neither a named column nor dropped. */
  lemma LoopNamesKept(c: string)
    ensures c in BinColumns ==> BinName(c) !in NamedDerived && BinName(c) !in DroppedSet && BinName(c) !in LogNames(LogColumns)
    ensures c in LogColumns ==> LogName(c) !in NamedDerived && LogName(c) !in DroppedSet
  {
    if c in BinColumns {
      BinNameKept(c);
    }
    if c in LogColumns {
      NamedDerivedShape();
      DroppedShape();
      LogNameShape(c);
    }
  }

  lemma BinNameKept(c: string)
    requires c in BinColumns
    ensures BinName(c) !in NamedDerived && BinName(c) !in DroppedSet && BinName(c) !in LogNames(LogColumns)
  {
    NamedDerivedShape();
    DroppedShape();
    BinNameShape(c);
    BinColumnsAreInt();
    IntColumnsShape();
    assert |c| >= 6;
    BinNameNotLog(c);
    LogNamesIff(LogColumns, BinName(c));
  }

  /** Appending "_bin" to a name of six or more characters that is not a log name gives no log name. */
  lemma BinNameNotLog(c: string)
    requires |c| >= 6 && !IsLogName(c)
    ensures !IsLogName(BinName(c))
  {
    assert BinName(c)[..6] == c[..6];
  }

  /** An output column that is not a named one holds what the loops left in it. */
  lemma LoopedColumn(x: Frame, k: string)
    requires Accepted(x) && k in OutputColumns(x.Keys) && k !in NamedDerived
    ensures Transform(x).Success? && k in Transform(x).value
    ensures (LoopedKeys(x); Transform(x).value[k] == Looped(x)[k])
  {
    TransformSpec(x);
    LoopedKeys(x);
  }

  /** The loops leave a flag of the cast count in each flag column. */
  lemma LoopedFlag(x: Frame, c: string)
    requires Castable(x) && AllNumeric(x, LogColumns) && c in BinColumns
    ensures BinName(c) in Looped(x)
    ensures (BinColumnsAreInt(); Looped(x)[BinName(c)] == BinCell(Casted(x)[c]))
  {
    LoopNamesKept(c);
    BinColumnsAreInt();
    BinNameShape(c);
    BinNamesIff(BinColumns, BinName(c));
    BinnedKeepsLogColumns(x);
  }

  /** A _bin flag is 1 exactly when the cast count is positive, that is when the count is at least 1. */
  lemma TransformFlags(x: Frame, c: string)
    requires Accepted(x) && c in BinColumns
    ensures Transform(x).Success? && BinName(c) in Transform(x).value
    ensures (BinColumnsAreInt(); Transform(x).value[BinName(c)] == if x[c].x >= 1.0 then Num(1.0) else Num(0.0))
  {
    var k := BinName(c);
    LoopNamesKept(c);
    LoopedFlag(x, c);
    BinNamesIff(BinColumns, k);
    BinNameShape(c);
    assert k in OutputColumns(x.Keys);
    LoopedColumn(x, k);
    BinColumnsAreInt();
    CastedInt(x, c);
    TruncPositiveIff(x[c].x);
  }

  /** The loops leave log1p's cell of the input in each log column. */
  lemma LoopedLog(x: Frame, c: string)
    requires Castable(x) && AllNumeric(x, LogColumns) && c in LogColumns
    ensures LogName(c) in Looped(x)
    ensures Looped(x)[LogName(c)] == LogCell(x[c])
  {
    LogNameShape(c);
    LogNamesIff(LogColumns, LogName(c));
    BinnedKeepsLogColumns(x);
  }

  /** A log1p column is NaN exactly when its column is NaN or below -1, and a float the model does not compute otherwise. */
  lemma TransformLogs(x: Frame, c: string)
    requires Accepted(x) && c in LogColumns
    ensures Transform(x).Success? && LogName(c) in Transform(x).value
    ensures Transform(x).value[LogName(c)] == if x[c].NaN? || x[c].x < -1.0 then NaN else Inexact
  {
    var k := LogName(c);
    LoopNamesKept(c);
    LoopedLog(x, c);
    LogNamesIff(LogColumns, k);
    LogNameShape(c);
    assert k in OutputColumns(x.Keys);
    LoopedColumn(x, k);
  }

  /** No dropped column survives, every derived column appears, and every other input column stays. */
  lemma OutputColumnsSpec(cols: set<string>)
    ensures forall c :: c in DroppedColumns ==> c !in OutputColumns(cols)
    ensures forall k :: k in NamedDerived ==> k in OutputColumns(cols)
    ensures forall c :: c in BinColumns ==> BinName(c) in OutputColumns(cols)
    ensures forall c :: c in LogColumns ==> LogName(c) in OutputColumns(cols)
    ensures forall k :: k in cols && k !in DroppedColumns ==> k in OutputColumns(cols)
  {
    NamedDerivedNotDropped();
    forall c | c in BinColumns
      ensures BinName(c) in OutputColumns(cols)
    {
      LoopNamesKept(c);
      BinNameShape(c);
      BinNamesIff(BinColumns, BinName(c));
    }
    forall c | c in LogColumns
      ensures LogName(c) in OutputColumns(cols)
    {
      LoopNamesKept(c);
      LogNameShape(c);
      LogNamesIff(LogColumns, LogName(c));
    }
  }

  /** The columns of the result, read off the input's columns. */
  lemma TransformColumns(x: Frame)
    requires Accepted(x)
    ensures Transform(x).Success?
    ensures Transform(x).value.Keys == OutputColumns(x.Keys)
  {
    TransformSpec(x);
  }

  /** A column no step writes or drops comes through untouched, save for the casts. */
  lemma TransformKeepsColumn(x: Frame, k: string)
    requires Accepted(x) && k in x && k !in DroppedColumns && k !in NamedDerived
    requires k !in BinNames(BinColumns) && k !in LogNames(LogColumns)
    ensures Transform(x).Success? && k in Transform(x).value
    ensures k == "ioi_36months" || k == "ioi_3months" ==> Transform(x).value[k] == Num(RoundHalfEven(x[k].x) as real)
    ensures k in IntColumns ==> Transform(x).value[k] == Num(Trunc(x[k].x) as real)
    ensures k !in IntColumns && k != "ioi_36months" && k != "ioi_3months" ==> Transform(x).value[k] == x[k]
  {
    OutputColumnsSpec(x.Keys);
    LoopedColumn(x, k);
    LoopedUnnamed(x, k);
    CastedReads(x);
    if k in IntColumns {
      CastedInt(x, k);
    }
  }

  /** With the ioi columns numeric, the cast reports the first integer column the row lacks. */
  lemma PrepareTypesLacks(y: Frame)
    requires "ioi_36months" in y && y["ioi_36months"].Num? && "ioi_3months" in y && y["ioi_3months"].Num?
    requires "default_3months" in y && "quant_protestos" !in y
    ensures Transform(y) == Failure(KeyError("quant_protestos"))
  {
    var f2 := y["ioi_36months" := Num(RoundHalfEven(y["ioi_36months"].x) as real)]
               ["ioi_3months" := Num(RoundHalfEven(y["ioi_3months"].x) as real)];
    assert PrepareTypes(y) == CastColumns(f2, IntColumns);
    assert IntColumns[0] in f2 && IntColumns[1] !in f2;
    assert FirstMissing(f2, IntColumns) == FirstMissing(f2, IntColumns[1..]);
  }

  /** The ioi columns and default_3months are cast and kept, under names no step writes. */
  lemma CastColumnsKept(k: string)
    requires k in ["ioi_36months", "ioi_3months", "default_3months"]
    ensures k !in DroppedColumns && k !in NamedDerived
    ensures k !in BinNames(BinColumns) && k !in LogNames(LogColumns)
  {
    BinNamesIff(BinColumns, k);
    LogNamesIff(LogColumns, k);
  }

  /**
   * transform cannot be applied to its own result: the drop removed
   * quant_protestos, which the integer cast reads again.
   */
  lemma SecondPassFails(x: Frame)
    requires Accepted(x)
    ensures Transform(x).Success?
    ensures Transform(Transform(x).value) == Failure(KeyError("quant_protestos"))
  {
    OutputColumnsSpec(x.Keys);
    TransformColumns(x);
    assert "default_3months" in IntColumns && "quant_protestos" in DroppedColumns;
    CastColumnsKept("ioi_36months");
    TransformKeepsColumn(x, "ioi_36months");
    CastColumnsKept("ioi_3months");
    TransformKeepsColumn(x, "ioi_3months");
    CastColumnsKept("default_3months");
    TransformKeepsColumn(x, "default_3months");
    PrepareTypesLacks(Transform(x).value);
  }

  /** The first column the steps need and the row lacks is the one reported. */
  lemma TransformMissingIoi(x: Frame)
    ensures "ioi_36months" !in x ==> Transform(x) == Failure(KeyError("ioi_36months"))
    ensures "ioi_36months" in x && x["ioi_36months"].NaN? ==> Transform(x) == Failure(CastError("ioi_36months"))
    ensures "ioi_36months" in x && x["ioi_36months"].Text? ==> Transform(x) == Failure(TypeError("ioi_36months"))
  {
  }
}
