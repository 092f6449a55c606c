# Feature engineering of the credit-risk frame, in Dafny

This project models `FeatureEngineeringTransformer.transform` from
`src/custom_transformers.py`, the feature-engineering step of a credit-risk
pipeline. For each company row the step does the following, in order:

- rounds and casts the day counts and integer columns;
- adds a `_bin` indicator for each count column and a `log1p_` column for each money column;
- buckets the two ioi day counts with `pd.cut` into right-closed bins (a, b], the default `right=True`;
- groups the society type;
- parses the free-text payment term into (number of installments, mean term, maximum term) and classifies the maximum term;
- sets the exact-equality "missing" flags;
- groups the main activity by keyword;
- groups months into four non-calendar periods;
- drops the 15 raw columns listed at lines 138-140.

The model looks at one row. A row (`FeatureEngineering.Frame`) is a map from
column names to cells. A cell is an exact number, a string, NaN, or a float
the model does not compute (`Inexact`).

The method `FeatureEngineering.TransformFrame` follows the source's imperative
shape. It starts from a copy of the row and updates it one column assignment at
a time. Its two `while` loops match the two `for col in ...` loops. The first
step that would raise in pandas ends the run with an `Error`: `KeyError`,
`CastError`, `TypeError`, `ValueError` (`astype(int)` on a str), `AttributeError` (`.lower()` on a value that is not a
str), or `Unmodelled` for an `Inexact` value that would decide the outcome. The method is proved equal to the function
`FeatureEngineering.Transform`, and the properties are proved about that
function.

The pure helpers of the step are functions in their own modules:

- `PaymentTerms` has `extrair_metricas`. Its two regular expressions are hand-written recursive string functions: a single-pass noise stripper and a digit-run splitter.
- `Classifiers` has `classificar_forma_pto`, `agrupar_meses`, the `_bin` rule, the `pd.cut` bins and the society-type table.
- `Activity` has `categorizar_atividade`, a first-match search over the ordered keyword table, which is kept as data.
- `NumericCasts` has `round()`, which rounds half to even, and the truncating `astype(int)`.
- `Text` has ASCII lower-casing, digit filtering and substring search.

The main theorem is `FeatureEngineering.TransformSpec`. `transform` succeeds
exactly on the rows it can read (`Accepted`). On those rows the result is
`Expected(x)`, a frame written directly in terms of the input row. Its columns
are the input's columns, plus the flags, the log columns and the 14 named
derived columns, minus the dropped ones. The lemmas in `TransformProperties`
read off each derived column.

## Model

| member | source | states |
|---|---|---|
| FeatureEngineering.TransformFrame | src/custom_transformers.py:23-142 | The step-by-step update of the copied row (rounding, casts, both loops, each derived column, the drop), stopping at the first raising step, computes exactly the value `Transform(x)` |
| FeatureEngineering.TransformSpec | src/custom_transformers.py:23-142 | transform succeeds iff every column it reads is present and of a usable kind; the result is then `Expected(x)` |
| FeatureEngineering.Expected | src/custom_transformers.py:23-142 | The result's columns are the input's plus the 5 flags, the 7 log columns and the 14 derived columns, less the 15 dropped ones |
| FeatureEngineering.Transform | src/custom_transformers.py:23-142 | transform as a value: the casts, the two loops, then the derived steps and the drop; its behaviour is stated by TransformSpec and TransformFrame |
| FeatureEngineering.RoundColumn | src/custom_transformers.py:27-28 | `X[col].round().astype(int)`: a missing column raises KeyError, NaN a CastError, a str a TypeError, an `Inexact` cell is Unmodelled; a number is rounded half to even (PrepareTypesSpec) |
| FeatureEngineering.CastColumns | src/custom_transformers.py:31-32 | `X[cols].astype(int)` over the listed columns: KeyError for the first absent one, CastError for NaN, ValueError for a str (CastColumnsSpec) |
| FeatureEngineering.PrepareTypes | src/custom_transformers.py:27-32 | The two roundings, then the integer cast (PrepareTypesSpec) |
| FeatureEngineering.BinColumn | src/custom_transformers.py:37 | One `col_bin` assignment: 1 for a positive number, 0 otherwise, NaN included (BinAllSpec) |
| FeatureEngineering.BinAll | src/custom_transformers.py:36-37 | The bin loop, one column after another (BinAllSpec) |
| FeatureEngineering.LogColumn | src/custom_transformers.py:42-43 | One `log1p_col` assignment: NaN for NaN or below -1, an uncomputed float otherwise (LogAllSpec) |
| FeatureEngineering.LogAll | src/custom_transformers.py:41-43 | The log loop, one column after another (LogAllSpec) |
| FeatureEngineering.IoiPhase | src/custom_transformers.py:46-50 | The two `pd.cut` columns and `ratio_ioi` (TransformIoiCategories, NamedColumn) |
| FeatureEngineering.SocietyPhase | src/custom_transformers.py:53-69 | `tipo_sociedade_agrupado` by the table (TransformSociety) |
| FeatureEngineering.PaymentPhase | src/custom_transformers.py:72-85 | The parser's triple in three columns; a value that is neither NaN nor str has no `.lower()` and raises AttributeError (TransformPaymentTerms, DeriveFails) |
| FeatureEngineering.TermClassPhase | src/custom_transformers.py:88-99 | `classificacao_prazo` from `prazo_maximo` (TransformTermClass) |
| FeatureEngineering.MissingFlagsPhase | src/custom_transformers.py:102-103 | The two exact-equality flags (TransformMissingFlags) |
| FeatureEngineering.ActivityPhase | src/custom_transformers.py:106-119 | `atividade_agrupada`; a value that is not a str raises AttributeError (TransformActivity, DeriveFails) |
| FeatureEngineering.ProportionPhase | src/custom_transformers.py:122-123 | `prop_vencido` and `prop_quitado` over quitado + por_vencer + 1 (NamedColumn) |
| FeatureEngineering.QuarterPhase | src/custom_transformers.py:126-135 | `trimestre` from the month (TransformQuarter) |
| FeatureEngineering.DropPhase | src/custom_transformers.py:138-140 | The drop raises KeyError on the first listed column that is absent and otherwise removes exactly the listed columns (DropReady) |
| FeatureEngineering.Derive | src/custom_transformers.py:46-140 | The steps after the loops, in source order (DeriveSpec, DeriveReady, DeriveFails) |
| FeatureEngineering.PrepareTypesSpec | src/custom_transformers.py:27-32 | The round and int casts succeed iff the two ioi columns and the 7 integer columns are present and numeric; the ioi columns are then rounded half to even, the integer columns truncated, and every other cell is kept |
| FeatureEngineering.CastColumnsSpec | src/custom_transformers.py:31-32 | `X[cols].astype(int)` succeeds iff all listed columns are present and numeric, and it truncates exactly those columns |
| FeatureEngineering.BinAllSpec | src/custom_transformers.py:35-37 | The bin loop succeeds iff every listed column holds a number or NaN; it adds exactly one `col_bin` per column, holding the column's indicator, and changes no other cell |
| FeatureEngineering.LogAllSpec | src/custom_transformers.py:40-43 | The log loop succeeds iff every listed column holds a number or NaN; it adds exactly one `log1p_col` per column and changes no other cell |
| FeatureEngineering.LoopsSpec | src/custom_transformers.py:35-43 | After the casts the bin loop always succeeds; the log loop then succeeds iff the money columns hold numbers or NaN |
| FeatureEngineering.DeriveSpec | src/custom_transformers.py:46-140 | The steps after the loops succeed iff the society, payment, tax-option and activity columns are present and the payment term and activity are usable; the result is then `Expected(x)` |
| FeatureEngineering.DeriveReady | src/custom_transformers.py:46-140 | On a readable row the eight column-adding steps followed by the drop give the added row less the dropped columns |
| FeatureEngineering.DeriveFails | src/custom_transformers.py:53-119 | If a text column is missing, or the payment term or activity has the wrong type, the steps after the loops raise |
| FeatureEngineering.DropReady | src/custom_transformers.py:138-140 | When every listed column exists, the drop keeps exactly the other columns with their cells |
| FeatureEngineering.NumberOf | src/custom_transformers.py:37 | A cell can be used as a number iff it is a number or NaN; NaN reads as absent |
| FeatureEngineering.Divide | src/custom_transformers.py:50 | The float division is NaN iff an operand is NaN or it is 0/0; otherwise it is a number iff the divisor is non-zero, and then the quotient times the divisor is the dividend |
| FeatureEngineering.MissingFlag | src/custom_transformers.py:102-103 | The flag is 1 iff the cell is exactly the string "missing", and 0 otherwise |
| FeatureEngineering.FirstMissing | src/custom_transformers.py:138-140 | None iff every listed column is present; otherwise a listed column that is absent |
| TransformProperties.TransformIoiCategories | src/custom_transformers.py:46-47 | `ioi_36m_cat` and `ioi_3_cat` are the `pd.cut` labels of the rounded day counts; they are NaN iff the rounded count is at most 0 or above the top edge (9999 or 999) |
| TransformProperties.TransformFlags | src/custom_transformers.py:31-37 | Each `col_bin` is 1 iff the input count is at least 1, because the count is truncated to an integer before the `> 0` test |
| TransformProperties.TransformLogs | src/custom_transformers.py:40-43 | Each `log1p_col` is NaN iff the input is NaN or below -1, and a float not computed here otherwise |
| TransformProperties.TransformSociety | src/custom_transformers.py:53-69 | `tipo_sociedade_agrupado` is the table's group for a listed string and NaN for anything else |
| TransformProperties.TransformPaymentTerms | src/custom_transformers.py:72-85 | The three payment columns are NaN iff `forma_pagamento` is NaN or lower-cases to "missing"; otherwise they are the count, the mean (sum / count) and the maximum of the parsed triple |
| TransformProperties.TransformTermClass | src/custom_transformers.py:88-99 | `classificacao_prazo` is `classificar_forma_pto` of the `prazo_maximo` column, with NaN read as absent |
| TransformProperties.TransformMissingFlags | src/custom_transformers.py:102-103 | Both missing flags are 1 iff their input cell is exactly `"missing"` |
| TransformProperties.MissingFlagIsCaseSensitive | src/custom_transformers.py:73-74 | For "MISSING" the flag is 0 but the parser still gives NaN terms, so the term class is "missing" |
| TransformProperties.TransformActivity | src/custom_transformers.py:106-119 | `atividade_agrupada` is `categorizar_atividade` of the activity and is one of the 7 labels |
| TransformProperties.TransformQuarter | src/custom_transformers.py:126-135 | `trimestre` is `agrupar_meses` of the truncated month |
| TransformProperties.TransformColumns | src/custom_transformers.py:138-140 | The output columns are the input columns, plus the derived ones, less the dropped ones |
| TransformProperties.OutputColumnsSpec | src/custom_transformers.py:138-140 | No dropped column is in the output; every flag, log and named derived column is, and so is every input column that is not dropped |
| TransformProperties.TransformKeepsColumn | src/custom_transformers.py:27-32 | An input column that is neither dropped nor overwritten by a derived column (a named one, a flag or a log column the loops write) comes through: the ioi columns rounded, the integer columns truncated, anything else unchanged |
| TransformProperties.LoopNamesKept | src/custom_transformers.py:35-43 | No flag or log column name clashes with a derived column or a dropped column, and no flag name is also a log name |
| TransformProperties.NamedColumn | src/custom_transformers.py:46-135 | Each of the 14 named derived columns is in the output and is computed from the cast row |
| TransformProperties.LoopedColumn | src/custom_transformers.py:35-43 | Every output column that is not a named derived column holds the cell the two loops left |
| TransformProperties.SecondPassFails | src/custom_transformers.py:31-32 | transform does not compose with itself: the second pass raises `KeyError` on `quant_protestos`, which the first pass dropped |
| TransformProperties.PrepareTypesLacks | src/custom_transformers.py:31-32 | Without `quant_protestos` the integer cast raises `KeyError` on that column |
| TransformProperties.TransformMissingIoi | src/custom_transformers.py:27 | A missing, NaN or string `ioi_36months` raises `KeyError`, `CastError` or `TypeError` at the first step |
| TransformProperties.CastedReads | src/custom_transformers.py:27-32 | After the casts the ioi columns are rounded, `month` is truncated, and every column outside the integer list is unchanged; CastedInt gives the truncation of the other integer columns |
| NumericCasts.RoundHalfEven | src/custom_transformers.py:27-28 | `round()` gives an integer within 0.5 of its argument and the even one on a tie |
| NumericCasts.RoundHalfEvenUnique | src/custom_transformers.py:27-28 | Those two conditions determine the rounded value uniquely |
| NumericCasts.RoundHalfEvenTies | src/custom_transformers.py:27-28 | 0.5 and -0.5 round to 0, 1.5 and 2.5 to 2, and -1.5 to -2 |
| NumericCasts.Trunc | src/custom_transformers.py:32 | `astype(int)` truncates toward zero |
| NumericCasts.TruncPositiveIff | src/custom_transformers.py:32-37 | A truncated value is positive iff the value is at least 1 |
| Classifiers.Bin | src/custom_transformers.py:37 | The indicator is 0 or 1, and 1 iff the count is positive |
| Classifiers.Cut | src/custom_transformers.py:46-47 | A value gets a label iff it lies in (first edge, last edge]; the label is the i-th one when it lies in (edge i, edge i+1] |
| Classifiers.Ioi36Cat | src/custom_transformers.py:46 | `pd.cut` with edges 0, 20, 38, 70, 9999 and its four labels (Ioi36CatIntervals) |
| Classifiers.Ioi3Cat | src/custom_transformers.py:47 | `pd.cut` with edges 0, 10, 15, 20, 999 and its four labels (Ioi3CatIntervals) |
| Classifiers.Ioi36CatIntervals | src/custom_transformers.py:46 | `ioi_36m_cat` uses the right-closed bins (0,20], (20,38], (38,70] and (70,9999]; other values get no label |
| Classifiers.Ioi3CatIntervals | src/custom_transformers.py:47 | `ioi_3_cat` uses the right-closed bins (0,10], (10,15], (15,20] and (20,999]; other values get no label |
| Classifiers.GrupoSociedade | src/custom_transformers.py:53-69 | A group exists iff the type is one of the 16 keys, and the group is then one of the 5 group names |
| Classifiers.GrupoSociedadeExamples | src/custom_transformers.py:53-69 | Listed keys map to their groups; the lookup is case-sensitive, and an unlisted key gets no group |
| Classifiers.ClassificarFormaPto | src/custom_transformers.py:88-98 | "missing" iff there is no value; "curto" iff <= 30, "medio" iff in (30,90], "longo" iff in (90,180], "muito_longo" iff above 180 |
| Classifiers.ClassificarFormaPtoMonotone | src/custom_transformers.py:88-98 | A longer term never gets a shorter class |
| Classifiers.ClassificarFormaPtoBoundaries | src/custom_transformers.py:91-97 | Each bound (30, 90, 180) belongs to the class below it |
| Classifiers.AgruparMeses | src/custom_transformers.py:126-134 | "1" iff <= 4, "2" iff in (4,6], "3" iff in (6,9], "4" otherwise; always one of the four labels |
| PaymentTerms.ExtrairMetricas | src/custom_transformers.py:72-84 | NaN triple iff the value is absent or lower-cases to "missing" (checked first); the cash case iff it lower-cases to "boleto a vista"; no digits iff the text has no digit; otherwise the count of numbers equals the number of maximal digit runs of the stripped text, and is at least 1 |
| PaymentTerms.NumbersKeepDigits | src/custom_transformers.py:78-83 | In the numbers case the digit runs, joined in order, are exactly the digits of the input: stripping and lower-casing lose and add no digit |
| PaymentTerms.NumbersAreTheRuns | src/custom_transformers.py:79-83 | The j-th number is the value of the j-th digit run |
| PaymentTerms.AsTriple | src/custom_transformers.py:73-84 | The tuple is NaN iff the value is missing; it is (1,0,0) for the cash case and (0,0,0) without digits; otherwise the count is the number of terms, the maximum is one of them and bounds all of them, and the mean is the sum of the terms over their count, so min <= mean <= max |
| PaymentTerms.SumBounds | src/custom_transformers.py:84 | A sum of values between lo and hi lies between count * lo and count * hi |
| PaymentTerms.StripNoise | src/custom_transformers.py:78 | The one-pass `re.sub` of the noise pattern; it never lengthens the text, and StripNoiseRemovesParens, StripNoiseKeepsDigits, StripNoiseDeletes, StripNoiseKeeps and StripNoiseSinglePass state what it deletes and keeps |
| PaymentTerms.DigitRuns | src/custom_transformers.py:79 | `re.findall(r"\d+", ...)`: every run is a non-empty string of digits. DigitRunsRun (a maximal leading run comes first) and DigitRunsSkip (a leading non-digit is skipped) fix the runs: they are the maximal runs, in order. DigitRunsConcat and DigitRunsCount give their concatenation and their number |
| PaymentTerms.ParseNat | src/custom_transformers.py:83 | `int()` of a string of decimal digits, most significant first (ParseNatToDigits, ParseNatLeadingZero) |
| PaymentTerms.MatchLength | src/custom_transformers.py:78 | The pattern matches at a position iff some alternative is a prefix there, and the matched text is that alternative |
| PaymentTerms.StripNoiseRemovesParens | src/custom_transformers.py:78 | The stripped text contains no `(`, `)` or `x` |
| PaymentTerms.StripNoiseKeepsDigits | src/custom_transformers.py:78 | Stripping keeps exactly the digits of the input, in order |
| PaymentTerms.StripNoiseDeletes | src/custom_transformers.py:78 | A noise token at the front is deleted |
| PaymentTerms.StripNoiseKeeps | src/custom_transformers.py:78 | A character that starts no noise token is kept |
| PaymentTerms.StripNoiseSinglePass | src/custom_transformers.py:78 | One pass only: "dxd" becomes "dd", which is not deleted again |
| PaymentTerms.StripNoiseJoinsDigits | src/custom_transformers.py:78-79 | Digits split only by a noise token join: "3x30" becomes "330" |
| PaymentTerms.DigitRunsConcat | src/custom_transformers.py:79 | The digit runs, concatenated, are the digits of the text |
| PaymentTerms.DigitRunsCount | src/custom_transformers.py:79 | There is one digit run per position where a digit follows a non-digit or the start |
| PaymentTerms.DigitRunsEmptyIff | src/custom_transformers.py:79-80 | There are no runs iff the text has no digit |
| PaymentTerms.DigitRunsSkip | src/custom_transformers.py:79 | A non-digit at the front starts no run: the runs are those of the rest |
| PaymentTerms.DigitRunsRun | src/custom_transformers.py:79 | A maximal leading run of digits is the first run |
| PaymentTerms.ParseNatToDigits | src/custom_transformers.py:83 | `int()` of a decimal numeral inverts writing the number in decimal |
| PaymentTerms.ParseNatLeadingZero | src/custom_transformers.py:83 | A leading zero does not change the parsed value |
| PaymentTerms.ParseAll | src/custom_transformers.py:83 | One number per run, the j-th being the value of the j-th run |
| PaymentTerms.MissingExample | src/custom_transformers.py:73-74 | "MISSING" gives the NaN triple |
| PaymentTerms.VistaExample | src/custom_transformers.py:75-76 | "Boleto a Vista" gives (1, 0, 0) |
| PaymentTerms.NoDigitsExample | src/custom_transformers.py:80-81 | "xyz" gives (0, 0, 0) |
| PaymentTerms.JoinedDigitsExample | src/custom_transformers.py:78-84 | "3x30" gives the single term 330 |
| PaymentTerms.ThreeInstallmentsExample | src/custom_transformers.py:78-84 | "30/60/90 dd boleto" gives the terms 30, 60 and 90 |
| PaymentTerms.ThreeInstallmentsTriple | src/custom_transformers.py:84 | Those terms give 3 installments, mean 180/3 and maximum 90 |
| Activity.Categorize | src/custom_transformers.py:115-118 | The result is the fallback or the category of a rule that matches |
| Activity.CategorizeFirstMatch | src/custom_transformers.py:115-117 | When rule k matches and no earlier rule does, the result is rule k's category |
| Activity.CategorizeNoMatch | src/custom_transformers.py:118 | When no rule matches, the result is "outros" |
| Activity.CategorizarAtividade | src/custom_transformers.py:106-118 | The category is always one of the 7 labels |
| Activity.CategorizarAtividadeFallbackIff | src/custom_transformers.py:115-118 | "outros" iff no keyword of any category occurs in the lower-cased text |
| Activity.CategorizarAtividadeLowered | src/custom_transformers.py:116 | Matching ignores capitals |
| Activity.FundDecides | src/custom_transformers.py:108 | Any text containing "fund" is "fundacao_ongs_instituicao", the first category |
| Activity.ConservaIsService | src/custom_transformers.py:108-111 | "conserva" misses the first three categories and falls in "servicos" through the keyword "serv" |
| Text.Lower | src/custom_transformers.py:73 | Lower-casing keeps the length, maps each character and leaves no capital |
| Text.LowerIdempotent | src/custom_transformers.py:73 | Lower-casing twice is lower-casing once |
| Text.OccursIff | src/custom_transformers.py:116 | Substring search finds `w` iff `w` occurs at some index |
| Text.DigitsEmptyIff | src/custom_transformers.py:79-80 | The digit filter is empty iff no character is a digit |

## Left out

- `fit`, `__init__`, the estimator base classes, and `X.copy()` beyond working on a value. The model keeps a single row: it does not model the DataFrame or its index, the dtypes, or the `Categorical` type `pd.cut` returns (its labels are modelled as strings).
- Lower-casing is ASCII only. `str.lower()` on other Unicode letters is not modelled. `\d` is read as `0`-`9` only, not every Unicode digit.
- Floating point is not modelled. Numbers are exact reals. `np.log1p` and an infinity from a division by zero become `Inexact`. `ratio_ioi`, the proportions and the mean term are exact quotients, not rounded floats.
- `astype(int)` of a numeric string, of an infinity, and integer overflow are not modelled. In the model a string or an `Inexact` cell stops the cast as an error.
- Errors: the model reports only the first offending column. pandas can name several missing columns in one `KeyError`, and its message text is not modelled.
- The proportions at lines 122-123 run through `DataFrame.apply` on Python floats. There a zero denominator raises `ZeroDivisionError` instead of giving an infinity. The model uses the NumPy rule, which applies when the values are NumPy floats (`Divide`).
